/** Definite assignment: a cell that starts untyped may be read once it has been written. */
module Assignment {
  import opened Core
  import opened Machine
  import opened Meaning
  import opened Unification
  import opened Inference
  import opened Typing
  import opened Syntax
  import opened Fixpoints
  import opened TypedValues
  import opened Soundness
  import B = Builtins

  /** A line that, where it yields, has written the topmost of the lowest `dark` cells of `n`. */
  predicate Writes(e: Expr, n: nat, dark: nat) {
    match e
    case Pone(_) => n == dark && n > 0
    case Lift(m) => n >= 2 && Writes(m, n - 1, dark)
    case _ => false
  }

  function OneLess(w: World): World {
    w.(dark := if w.dark > 0 then w.dark - 1 else 0)
  }

  /** Reads no cell before a line above has written it, on every path down the bind spine. */
  predicate Careful(w: World, lv: nat, n: nat, e: Expr)
    decreases e
  {
    || Reads(w, lv, n, e)
    || (e.Bind? && Reads(w, lv, n, e.m) && Careful(if Writes(e.m, n, w.dark) then OneLess(w) else w, lv, n, e.k))
    || (e.If? && Reads(w, lv, n, e.c) && Careful(w, lv, n, e.t) && Careful(w, lv, n, e.e))
  }

  // --- fewer dark cells ---

  lemma {:induction false} ValueBrighter(w: World, d: nat, v: Value, t: Type)
    requires HasV(w, v, t) && d <= w.dark
    ensures HasV(w.(dark := d), v, t)
    decreases v, 0
  {
    hide HasScope, BodyHas, BodyRecord, SigOf, Param, Left, B.PrimOf, B.ArityOf;
    match v
    case Closure(x, b, env) =>
      var lv, mode, g :| HasScope(w, env, g) && BodyHas(w, lv, mode, g, x, b, t);
      ScopeBrighter(w, d, env, g);
      BodyBrighter(w, d, lv, mode, g, x, b, t);
    case Builtin(name, args) =>
      var p := B.PrimOf(name).value;
      var a :| InstanceOk(p, a) && t == Left(SigOf(p, a), |args|)
               && forall i :: 0 <= i < |args| ==> HasV(w, args[i], Param(SigOf(p, a), i));
      forall i | 0 <= i < |args| ensures HasV(w.(dark := d), args[i], Param(SigOf(p, a), i)) {
        ValueBrighter(w, d, args[i], Param(SigOf(p, a), i));
      }
    case _ =>
  }

  lemma BodyBrighter(w: World, d: nat, lv: nat, mode: Mode, g: Gamma, x: Sym, b: Expr, t: Type)
    requires t.Fun? && BodyHas(w, lv, mode, g, x, b, t) && d <= w.dark
    ensures BodyHas(w.(dark := d), lv, mode, g, x, b, t)
  {
    hide HasType, AtHome, WellFormed, Knotted;
    LowerBar(w.fugues, lv, OpLege, w.dark, d, 1, b);
    Retied(w, w.(dark := d), lv, mode, g + [Entry(x, t.a)], b, t.r);
  }

  lemma {:induction false} ScopeBrighter(w: World, d: nat, s: Scope, g: Gamma)
    requires HasScope(w, s, g) && d <= w.dark
    ensures HasScope(w.(dark := d), s, g)
    decreases s, 0
  {
    hide HasV;
    if s.Node? {
      ValueBrighter(w, d, s.value, g[|g| - 1].t);
      ScopeBrighter(w, d, s.next, g[..|g| - 1]);
    }
  }

  lemma CtxBrighter(ctx: Ctx, w: World, d: nat)
    requires FitCtx(ctx, w) && d <= w.dark
    ensures FitCtx(ctx, w.(dark := d))
  {
    hide HasV, FitProgram;
    ValueBrighter(w, d, ctx.arg, w.arg);
  }

  // --- writing the topmost dark cell ---

  lemma {:induction false} WritesDark(e: Expr, n: nat, dark: nat)
    requires Writes(e, n, dark)
    ensures 0 < dark <= n
  {
    if e.Lift? { WritesDark(e.m, n - 1, dark); }
  }

  lemma LayersThere(w: World, L: seq<Layer>)
    requires HasL(w, L)
    ensures |L| > 0
  {
    hide HasV;
  }

  lemma {:induction false} WrittenIsTyped(ctx: Ctx, w: World, lv: nat, mode: Mode, g: Gamma, e: Expr, t: Type,
          s: Scope, L: seq<Layer>, fuel: nat)
    requires FitCtx(ctx, w) && Fit(w, lv, mode, g, e, t, s, |L|) && HasL(w, L) && Writes(e, |L|, w.dark)
    requires Denote(ctx, e, s, L, fuel).Yield?
    ensures HasL(OneLess(w), Denote(ctx, e, s, L, fuel).L)
    decreases e
  {
    hide Denote, DenoteForm, DenoteRest, HasL, HasV, FitCtx, Legal, Kinds, Fit, First, OpOf, Relayer;
    LayersThere(w, L);
    Unfold(ctx, e, s, L, fuel);
    match e
    case Pone(m) => PoneTypes(ctx, w, lv, mode, g, e, t, s, L, fuel);
    case Lift(m) =>
      LiftFit(w, lv, mode, g, m, t, s, |L|);
      BelowHas(w, L);
      LiftYields(ctx, m, s, L, fuel);
      WrittenIsTyped(ctx, w, lv, Base(mode), g, m, t, s, L[1..], fuel - 1);
      WritesDark(m, |L| - 1, w.dark);
      UnderTyped(w, L, Denote(ctx, m, s, L[1..], fuel - 1), fuel - 1);
  }

  lemma LiftYields(ctx: Ctx, m: Expr, s: Scope, L: seq<Layer>, fuel: nat)
    requires |L| >= 2 && Denote(ctx, Lift(m), s, L, fuel).Yield?
    ensures fuel > 0
    ensures var r := Denote(ctx, m, s, L[1..], fuel - 1); r.Yield? && Denote(ctx, Lift(m), s, L, fuel).L == [L[0]] + r.L
  {
    hide Denote, Kinds;
    Unfold(ctx, Lift(m), s, L, fuel);
  }

  lemma LiftFit(w: World, lv: nat, mode: Mode, g: Gamma, m: Expr, t: Type, s: Scope, n: nat)
    requires Fit(w, lv, mode, g, Lift(m), t, s, n) && n >= 2
    ensures Fit(w, lv, Base(mode), g, m, t, s, n - 1)
  {
    hide HasScope, Knotted, AtHome;
    ReadsParts(w, lv, n, Lift(m));
    assert m in Subs(Lift(m));
  }

  lemma PoneTypes(ctx: Ctx, w: World, lv: nat, mode: Mode, g: Gamma, e: Expr, t: Type, s: Scope, L: seq<Layer>,
          fuel: nat)
    requires FitCtx(ctx, w) && Fit(w, lv, mode, g, e, t, s, |L|) && HasL(w, L) && e.Pone? && |L| == w.dark > 0
    requires Denote(ctx, e, s, L, fuel).Yield?
    ensures HasL(OneLess(w), Denote(ctx, e, s, L, fuel).L)
  {
    hide Denote, HasL, HasV, Legal, Kinds, Fit, HasType, HasScope, Knotted, Reads, WellFormed, FitProgram;
    var t1 := FirstFit(w, lv, mode, g, e, t, s, |L|);
    Unfold(ctx, e, s, L, fuel);
    SoundDenote(ctx, w, lv, mode, g, First(e).value, t1, s, L, fuel - 1);
    var r := FirstRes(ctx, e, s, L, fuel);
    assert r.Yield? && r.left > 0 && |Kinds(r.L)| == |Kinds(L)|;
    assert Denote(ctx, e, s, L, fuel) == Perform(e, r.v, r.L, r.left - 1);
    TopTyped(w, e, r.v, r.L);
  }

  lemma TopTyped(w: World, e: Expr, v: Value, L: seq<Layer>)
    requires e.Pone? && HasL(w, L) && HasV(w, v, w.state) && |L| == w.dark > 0 && Legal(e, Kinds(L))
    ensures HasL(OneLess(w), L[SlotOf(e, Kinds(L)).value := StateL(v)])
  {
    hide HasV;
    var i := SlotOf(e, Kinds(L)).value;
    assert L[i].StateL? && KindOf(L[0]) == StateK;
    ValueBrighter(w, w.dark - 1, v, w.state);
  }

  lemma UnderTyped(w: World, L: seq<Layer>, r: Res, fuel: nat)
    requires HasL(w, L) && |L| >= 2 && 0 < w.dark < |L|
    requires r.Yield? && HasL(OneLess(w), r.L) && Meaning.Fits(Kinds(L[1..]), fuel, r)
    ensures HasL(OneLess(w), [L[0]] + r.L)
  {
    hide HasV;
    var L' := [L[0]] + r.L;
    assert |Kinds(r.L)| == |Kinds(L[1..])| && Kinds(r.L)[0] == Kinds(L[1..])[0];
    assert r.L[0].StateL? <==> L[1].StateL?;
    forall i | 0 <= i < |L'| ensures L'[i].StateL? <==> L'[0].StateL? { if i > 0 { assert L'[i] == r.L[i - 1]; } }
    if L[0].StateL? { ValueBrighter(w, w.dark - 1, L[0].cell, w.state); }
    forall i | 0 <= i < |L'| - (w.dark - 1) && L'[i].StateL? ensures HasV(OneLess(w), L'[i].cell, w.state) {
      if i > 0 { assert L'[i] == r.L[i - 1]; }
    }
  }

  // --- soundness ---

  /** The result has its type where perhaps fewer cells are dark. */
  ghost predicate Lit(w: World, t: Type, r: Res) {
    exists d: nat :: d <= w.dark && HasR(w.(dark := d), t, r)
  }

  /** Careful code is as safe as code that reads nothing. */
  lemma {:induction false} SoundCareful(ctx: Ctx, w: World, lv: nat, mode: Mode, g: Gamma, e: Expr, t: Type,
          s: Scope, L: seq<Layer>, fuel: nat)
    requires FitCtx(ctx, w) && HasScope(w, s, g) && WellFormed(Knotted(w.fugues), e) && HasType(w, lv, mode, g, e, t)
    requires Careful(w, lv, |L|, e) && HasL(w, L)
    ensures Lit(w, t, Denote(ctx, e, s, L, fuel))
    decreases e, 1
  {
    hide Denote, HasL, HasV, FitCtx, HasScope, WellFormed, Knotted, HasType, Reads, HasR;
    if Reads(w, lv, |L|, e) {
      SoundDenote(ctx, w, lv, mode, g, e, t, s, L, fuel);
      assert w.(dark := w.dark) == w;
    } else if e.Bind? {
      CarefulBind(ctx, w, lv, mode, g, e, t, s, L, fuel);
    } else {
      CarefulIf(ctx, w, lv, mode, g, e, t, s, L, fuel);
    }
  }

  lemma {:induction false} CarefulBind(ctx: Ctx, w: World, lv: nat, mode: Mode, g: Gamma, e: Expr, t: Type,
          s: Scope, L: seq<Layer>, fuel: nat)
    requires FitCtx(ctx, w) && HasScope(w, s, g) && WellFormed(Knotted(w.fugues), e) && HasType(w, lv, mode, g, e, t)
    requires e.Bind? && Reads(w, lv, |L|, e.m) && HasL(w, L)
    requires Careful(if Writes(e.m, |L|, w.dark) then OneLess(w) else w, lv, |L|, e.k)
    ensures Lit(w, t, Denote(ctx, e, s, L, fuel))
    decreases e, 0
  {
    hide Denote, HasL, HasV, FitCtx, HasScope, Knotted, HasType, Reads, Careful, Writes, Legal, Kinds, Lit, WellFormed, Fit, DenoteForm, HasR;
    var u := BindFit(w, lv, mode, g, e, t, s, |L|);
    SoundDenote(ctx, w, lv, mode, g, e.m, u, s, L, if fuel == 0 then 0 else fuel - 1);
    Unfold(ctx, e, s, L, fuel);
    var r := FirstRes(ctx, e, s, L, fuel);
    if fuel > 0 && Legal(e, Kinds(L)) && r.Yield? && r.left > 0 {
      assert |Kinds(r.L)| == |Kinds(L)|;
      YieldHas(w, u, r);
      if Writes(e.m, |L|, w.dark) { WrittenIsTyped(ctx, w, lv, mode, g, e.m, u, s, L, fuel - 1); }
      ScopeSnoc(w, s, g, e.x, r.v, u);
      CarefulOn(ctx, w, if Writes(e.m, |L|, w.dark) then OneLess(w).dark else w.dark, lv, mode, g + [Entry(e.x, u)], e.k, t,
                s.Bind(e.x, r.v), r.L, r.left - 1);
    } else {
      StoppedLit(w, u, t, r, ctx.mode, OpOf(e));
    }
  }

  lemma BindFit(w: World, lv: nat, mode: Mode, g: Gamma, e: Expr, t: Type, s: Scope, n: nat) returns (u: Type)
    requires HasScope(w, s, g) && WellFormed(Knotted(w.fugues), e) && HasType(w, lv, mode, g, e, t)
    requires e.Bind? && Reads(w, lv, n, e.m)
    ensures Fit(w, lv, mode, g, e.m, u, s, n)
    ensures WellFormed(Knotted(w.fugues), e.k) && HasType(w, lv, mode, g + [Entry(e.x, u)], e.k, t)
  {
    hide HasScope, Knotted, HasType, Reads;
    u := BindParts(w, lv, mode, g, e, t);
  }

  lemma YieldHas(w: World, t: Type, r: Res)
    requires HasR(w, t, r) && r.Yield?
    ensures HasV(w, r.v, t) && HasL(w, r.L)
  {
    hide HasV, HasL;
  }

  /** What follows a line, with `d` cells dark. */
  lemma {:induction false} CarefulOn(ctx: Ctx, w: World, d: nat, lv: nat, mode: Mode, g: Gamma, e: Expr, t: Type,
          s: Scope, L: seq<Layer>, fuel: nat)
    requires FitCtx(ctx, w) && HasScope(w, s, g) && WellFormed(Knotted(w.fugues), e) && HasType(w, lv, mode, g, e, t)
    requires d <= w.dark && Careful(w.(dark := d), lv, |L|, e) && HasL(w.(dark := d), L)
    ensures Lit(w, t, Denote(ctx, e, s, L, fuel))
    decreases e, 2
  {
    hide Denote, HasL, HasV, FitCtx, HasScope, Knotted, WellFormed, HasType, Careful, Lit;
    ScopeBrighter(w, d, s, g);
    CtxBrighter(ctx, w, d);
    SameCode(w, d, lv, mode, g, e, t);
    SoundCareful(ctx, w.(dark := d), lv, mode, g, e, t, s, L, fuel);
    StillLit(w, d, t, Denote(ctx, e, s, L, fuel));
  }

  lemma {:induction false} CarefulIf(ctx: Ctx, w: World, lv: nat, mode: Mode, g: Gamma, e: Expr, t: Type,
          s: Scope, L: seq<Layer>, fuel: nat)
    requires FitCtx(ctx, w) && HasScope(w, s, g) && WellFormed(Knotted(w.fugues), e) && HasType(w, lv, mode, g, e, t)
    requires e.If? && Reads(w, lv, |L|, e.c) && Careful(w, lv, |L|, e.t) && Careful(w, lv, |L|, e.e) && HasL(w, L)
    ensures Lit(w, t, Denote(ctx, e, s, L, fuel))
    decreases e, 0
  {
    hide Denote, HasL, HasV, FitCtx, HasScope, Knotted, HasType, Reads, Careful, Legal, Kinds, Lit;
    IfParts(w, lv, mode, g, e, t);
    SoundDenote(ctx, w, lv, mode, g, e.c, TBool, s, L, if fuel == 0 then 0 else fuel - 1);
    Unfold(ctx, e, s, L, fuel);
    var r := FirstRes(ctx, e, s, L, fuel);
    if fuel > 0 && Legal(e, Kinds(L)) && r.Yield? && r.left > 0 {
      assert |Kinds(r.L)| == |Kinds(L)|;
      Shaped(w, r.v, TBool);
      SoundCareful(ctx, w, lv, mode, g, if r.v.b then e.t else e.e, t, s, r.L, r.left - 1);
    } else {
      StoppedLit(w, TBool, t, r, ctx.mode, OpOf(e));
    }
  }

  lemma SameCode(w: World, d: nat, lv: nat, mode: Mode, g: Gamma, e: Expr, t: Type)
    requires HasType(w, lv, mode, g, e, t)
    ensures HasType(w.(dark := d), lv, mode, g, e, t)
  {
    hide HasType;
    Retied(w, w.(dark := d), lv, mode, g, e, t);
  }

  lemma StillLit(w: World, d: nat, t: Type, r: Res)
    requires d <= w.dark && Lit(w.(dark := d), t, r)
    ensures Lit(w, t, r)
  {
    hide HasR;
    var d': nat :| d' <= d && HasR(w.(dark := d).(dark := d'), t, r);
    assert w.(dark := d).(dark := d') == w.(dark := d');
  }

  /** What ends a line ends the verse, whatever its type. */
  lemma StoppedLit(w: World, u: Type, t: Type, r: Res, mode: Mode, op: OpKind)
    requires r.Out? || HasR(w, u, r)
    ensures Lit(w, t, Out) && Lit(w, t, Abort(WrongMode(mode, op)))
    ensures !r.Yield? || r.left == 0 ==> Lit(w, t, Stop(r))
  {
    hide HasV, HasL;
    assert w.(dark := w.dark) == w;
    assert HasR(w, t, Out) && HasR(w, t, Abort(WrongMode(mode, op)));
    assert !r.Yield? || r.left == 0 ==> HasR(w, t, Stop(r));
  }
}
