/** Type soundness: a typed expression run on typed inputs never meets a value of the wrong
    type, an unconsecrated commit or an unbound name, and what it yields has its type. */
module Soundness {
  import opened Core
  import opened Machine
  import opened Meaning
  import opened Unification
  import opened Inference
  import opened Typing
  import opened Syntax
  import opened TypedValues
  import E = Erasure
  import B = Builtins

  // --- builtins ---

  lemma StillFun(p: B.Prim, a: Type, n: nat)
    ensures n < B.ArityOf(p) ==> Left(SigOf(p, a), n).Fun?
  {
    var sig := SigOf(p, a);
    assert Left(sig, 0) == sig;
    if n > 0 && sig.Fun? {
      assert Left(sig, n) == Left(sig.r, n - 1);
      if n > 1 && sig.r.Fun? {
        assert Left(sig.r, n - 1) == Left(sig.r.r, n - 2);
        if n > 2 && sig.r.r.Fun? {
          assert Left(sig.r.r, n - 2) == Left(sig.r.r.r, n - 3);
        }
      }
    }
  }

  /** A typed value has the shape its type says. */
  lemma Shaped(w: World, v: Value, t: Type)
    requires HasV(w, v, t)
    ensures !t.Fun? ==> !v.Closure? && !v.Builtin? && t == TypeOfValue(v)
    ensures t.Fun? ==> v.Closure? || v.Builtin?
    ensures v.Record? ==> BodyRecord(v.entries)
  {
    if v.Builtin? {
      var p := B.PrimOf(v.name).value;
      var a :| InstanceOk(p, a) && t == Left(SigOf(p, a), |v.args|);
      StillFun(p, a, |v.args|);
    }
  }

  /** The arguments have the parameter types of the builtin at instance `a`. */
  ghost predicate ArgsHave(w: World, p: B.Prim, a: Type, args: seq<Value>) {
    InstanceOk(p, a) && forall i :: 0 <= i < |args| ==> HasV(w, args[i], Param(SigOf(p, a), i))
  }

  lemma ArgShaped(w: World, p: B.Prim, a: Type, args: seq<Value>, i: nat)
    requires ArgsHave(w, p, a, args) && i < |args|
    ensures InstanceOk(p, a)
    ensures var t := Param(SigOf(p, a), i);
            && (!t.Fun? ==> !args[i].Closure? && !args[i].Builtin? && t == TypeOfValue(args[i]))
            && (args[i].Record? ==> BodyRecord(args[i].entries))
  {
    hide HasV;
    Shaped(w, args[i], Param(SigOf(p, a), i));
  }

  /** A call on typed arguments succeeds, and with a literal of the result type. */
  ghost predicate Succeeds(ph: Physics, p: B.Prim, a: Type, args: seq<Value>)
    requires |args| >= B.ArityOf(p)
  {
    var r := B.Call(ph, p, args);
    r.Done? && Literal(r.v) && TypeOfValue(r.v) == Left(SigOf(p, a), |args|)
  }

  lemma UnaryCall(w: World, ph: Physics, p: B.Prim, a: Type, args: seq<Value>)
    requires |args| == B.ArityOf(p) == 1 && ArgsHave(w, p, a, args)
    ensures Succeeds(ph, p, a, args)
  {
    hide HasV, ArgsHave;
    ArgShaped(w, p, a, args, 0);
    assert Left(SigOf(p, a), 1) == Left(SigOf(p, a).r, 0) == SigOf(p, a).r;
  }

  lemma BinaryCall(w: World, ph: Physics, p: B.Prim, a: Type, args: seq<Value>)
    requires |args| == B.ArityOf(p) == 2 && ArgsHave(w, p, a, args) && !p.Solve?
    ensures Succeeds(ph, p, a, args)
  {
    hide HasV, ArgsHave, B.ValueEq, B.IsSafe;
    var sig := SigOf(p, a);
    ArgShaped(w, p, a, args, 0);
    ArgShaped(w, p, a, args, 1);
    assert Param(sig, 1) == Param(sig.r, 0) == sig.r.a;
    assert Left(sig, 2) == Left(sig.r, 1) == Left(sig.r.r, 0) == sig.r.r;
    if p.Safe? {
      SafeCall(ph, args[0], args[1]);
      assert Succeeds(ph, p, a, args);
    }
  }

  lemma SafeCall(ph: Physics, body: Value, g: Value)
    requires body.Record? && BodyRecord(body.entries) && g.Num?
    ensures B.IsSafe(ph, body, g).Ok? && B.IsSafe(ph, body, g).value.Bool?
  {
  }

  lemma CmdCall(w: World, ph: Physics, a: Type, args: seq<Value>)
    requires |args| == 3 && ArgsHave(w, B.MakeCmd, a, args)
    ensures Succeeds(ph, B.MakeCmd, a, args)
  {
    hide HasV, ArgsHave;
    var sig := SigOf(B.MakeCmd, a);
    ArgShaped(w, B.MakeCmd, a, args, 0);
    ArgShaped(w, B.MakeCmd, a, args, 1);
    ArgShaped(w, B.MakeCmd, a, args, 2);
    assert Param(sig, 1) == Param(sig.r, 0) == TNum;
    assert Param(sig, 2) == Param(sig.r, 1) == Param(sig.r.r, 0) == TNum;
    assert Left(sig, 3) == Left(sig.r, 2) == Left(sig.r.r, 1) == Left(sig.r.r.r, 0) == TCmd;
  }

  lemma CorpusCall(w: World, ph: Physics, a: Type, args: seq<Value>)
    requires |args| == 4 && ArgsHave(w, B.Corpus, a, args)
    ensures Succeeds(ph, B.Corpus, a, args)
  {
    hide HasV, ArgsHave;
    var sig := SigOf(B.Corpus, a);
    ArgShaped(w, B.Corpus, a, args, 0);
    ArgShaped(w, B.Corpus, a, args, 1);
    ArgShaped(w, B.Corpus, a, args, 2);
    ArgShaped(w, B.Corpus, a, args, 3);
    assert Param(sig, 1) == Param(sig.r, 0) == a;
    assert Param(sig, 2) == Param(sig.r, 1) == Param(sig.r.r, 0) == TNum;
    assert Param(sig, 3) == Param(sig.r, 2) == Param(sig.r.r, 1) == Param(sig.r.r.r, 0) == TNum;
    assert Left(sig, 4) == Left(sig.r, 3) == Left(sig.r.r, 2) == Left(sig.r.r.r, 1) == Left(sig.r.r.r.r, 0) == TCorpus;
  }

  lemma CallSound(w: World, ph: Physics, p: B.Prim, a: Type, args: seq<Value>)
    requires |args| == B.ArityOf(p) && ArgsHave(w, p, a, args) && !p.Solve?
    ensures Succeeds(ph, p, a, args)
  {
    hide ArgsHave, Succeeds;
    match B.ArityOf(p)
    case 1 => UnaryCall(w, ph, p, a, args);
    case 2 => BinaryCall(w, ph, p, a, args);
    case 3 => CmdCall(w, ph, a, args);
    case _ => CorpusCall(w, ph, a, args);
  }

  /** The arguments, as data, have the parameter types at some instance. */
  ghost predicate FitSig(p: B.Prim, args: seq<Value>) {
    exists a :: InstanceOk(p, a) && forall i :: 0 <= i < |args| ==> TypeOfValue(args[i]) == Param(SigOf(p, a), i)
  }

  lemma FitsAt(p: B.Prim, a: Type, args: seq<Value>)
    requires InstanceOk(p, a) && forall i :: 0 <= i < |args| ==> TypeOfValue(args[i]) == Param(SigOf(p, a), i)
    ensures FitSig(p, args)
  {
  }

  lemma Params(p: B.Prim, a: Type)
    ensures var sig := SigOf(p, a);
            && (B.ArityOf(p) > 0 ==> sig.Fun? && Param(sig, 0) == sig.a)
            && (B.ArityOf(p) > 1 ==> sig.r.Fun? && Param(sig, 1) == sig.r.a)
            && (B.ArityOf(p) > 2 ==> sig.r.r.Fun? && Param(sig, 2) == sig.r.r.a)
            && (B.ArityOf(p) > 3 ==> sig.r.r.r.Fun? && Param(sig, 3) == sig.r.r.r.a)
  {
    var sig := SigOf(p, a);
    if B.ArityOf(p) > 1 { assert Param(sig, 1) == Param(sig.r, 0); }
    if B.ArityOf(p) > 2 { assert Param(sig, 2) == Param(sig.r, 1) == Param(sig.r.r, 0); }
    if B.ArityOf(p) > 3 { assert Param(sig, 3) == Param(sig.r, 2) == Param(sig.r.r, 1) == Param(sig.r.r.r, 0); }
  }

  /** A signature is as wide as its call: data fit it exactly if the call succeeds on them, but that
      `eq` is typed on two values of one type only, and the venting of a body only. */
  lemma SigIsWidest(ph: Physics, p: B.Prim, args: seq<Value>)
    requires |args| == B.ArityOf(p) && !p.Solve? && forall i :: 0 <= i < |args| ==> Literal(args[i])
    ensures FitSig(p, args) <==>
              && B.Call(ph, p, args).Done?
              && (p.Eq? ==> TypeOfValue(args[0]) == TypeOfValue(args[1])) && (p.Outgassing? ==> args[0].Record?)
  {
    hide B.Call, Param, FitSig;
    B.CallsExactly(ph, p, args);
    if FitSig(p, args) { FitsTake(p, args); }
    if B.Takes(p, args) && (p.Eq? ==> TypeOfValue(args[0]) == TypeOfValue(args[1])) && (p.Outgassing? ==> args[0].Record?) {
      var a := if p.Eq? then TypeOfValue(args[0]) else if p.Corpus? then TypeOfValue(args[1]) else TUnit;
      Params(p, a);
      FitsAt(p, a, args);
    }
  }

  lemma FitsTake(p: B.Prim, args: seq<Value>)
    requires |args| == B.ArityOf(p) && !p.Solve? && (forall i :: 0 <= i < |args| ==> Literal(args[i])) && FitSig(p, args)
    ensures B.Takes(p, args)
    ensures (p.Eq? ==> TypeOfValue(args[0]) == TypeOfValue(args[1])) && (p.Outgassing? ==> args[0].Record?)
  {
    hide Param;
    var a :| InstanceOk(p, a) && forall i :: 0 <= i < |args| ==> TypeOfValue(args[i]) == Param(SigOf(p, a), i);
    Params(p, a);
  }

  // --- the knot ---

  /** The value a fixpoint is given for itself has the fixpoint's type. */
  lemma KnotHas(w: World, lv: nat, mode: Mode, g: Gamma, f: Expr, s: Scope, t: Type, n: nat)
    requires HasScope(w, s, g) && WellFormed(Knotted(w.fugues), Fix(f)) && HasType(w, lv, mode, g, Fix(f), t)
    requires t.Fun? && Reads(w, lv, n, Fix(f))
    ensures HasV(w, SelfRef(f, s), t)
  {
    hide HasScope, HasV, WellFormed, E.Free, Knotted, HasType, Reads;
    var self := Entry(SELF, t.a);
    assert g + [] == g;
    KnotBlind(w, f, self);
    Weakening(w, lv, mode, g, self, [], Fix(f), t);
    assert Under(g, self, []) == g + [self];
    var body := App(Fix(f), Var(SELF));
    NewestHas(w, lv, mode, g, self);
    AppWhole(w, lv, mode, g + [self], body, t.r, t.a);
    KnotWellFormed(Knotted(w.fugues), f);
    KnotReads(w, lv, n, f);
    ClosureHas(w, SELF, body, s, t, lv, mode, g);
  }

  lemma KnotReads(w: World, lv: nat, n: nat, f: Expr)
    requires Reads(w, lv, n, Fix(f))
    ensures Reads(w, lv, 1, App(Fix(f), Var(SELF)))
  {
    hide Answers;
    var b := App(Fix(f), Var(SELF));
    assert Subs(Fix(f)) == [f] && Subs(b) == [Fix(f), Var(SELF)] && Subs(Var(SELF)) == [];
    assert Reads(w, lv, 1, Fix(f)) && Reads(w, lv, 1, Var(SELF));
  }

  /** The parts of code that may read cells may read them where they stand. */
  lemma ReadsParts(w: World, lv: nat, n: nat, e: Expr)
    requires Reads(w, lv, n, e)
    ensures forall m :: m in Subs(e) ==> Reads(w, lv, Room(e, n), m)
  {
    hide Subs, Answers, Does;
  }

  lemma KnotBlind(w: World, f: Expr, n: Entry)
    requires WellFormed(Knotted(w.fugues), Fix(f)) && n.x == SELF
    ensures Blind(w, n, [], Fix(f))
  {
  }

  lemma KnotWellFormed(held: bool, f: Expr)
    requires WellFormed(held, Fix(f))
    ensures WellFormed(held, App(Fix(f), Var(SELF)))
  {
  }

  lemma NewestHas(w: World, lv: nat, mode: Mode, g: Gamma, n: Entry)
    ensures HasType(w, lv, mode, g + [n], Var(n.x), n.t)
  {
  }

  // --- what is left to type once the first operand has its type ---

  ghost predicate RestHas(w: World, lv: nat, mode: Mode, g: Gamma, e: Expr, t: Type, t1: Type)
    requires First(e).Some?
  {
    match e
    case App(_, a) => t1.Fun? && t1.r == t && HasType(w, lv, mode, g, a, t1.a)
    case If(_, p, q) => t1 == TBool && HasType(w, lv, mode, g, p, t) && HasType(w, lv, mode, g, q, t)
    case Fix(f) => t1 == Fun(t, t) && t.Fun? && HasType(w, lv, mode, g, e, t)
    case Return(_, _) => t1 == w.result
    case Bind(_, _, x, k) => HasType(w, lv, mode, g + [Entry(x, t1)], k, t)
    case Resolve(x, _) =>
      t1 == TGenus && (Mentions(Answers(w.fugues), x) ==> lv > 0 && AnswersHave(w, lv - 1, mode, g, Answers(w.fugues), x, t))
    case Clama(_) => t1 == w.throw
    case Pone(_) => t1 == w.state && t == TUnit
    case Mitte(_) => (t1 == TCmd || t1 == TPlan) && t == TUnit
    case Perage(_) => t1 == TPlan && w.result == TUnit
  }

  lemma FirstHas(w: World, lv: nat, mode: Mode, g: Gamma, e: Expr, t: Type) returns (t1: Type)
    requires First(e).Some? && HasType(w, lv, mode, g, e, t) && w.tied
    ensures HasType(w, lv, mode, g, First(e).value, t1) && RestHas(w, lv, mode, g, e, t, t1)
  {
    hide NameHas, AnswersHave, OpHasType;
    match e
    case App(_, _) =>
      var u := AppParts(w, lv, mode, g, e, t);
      t1 := Fun(u, t);
    case If(_, _, _) => t1 := TBool;
    case Fix(_) => t1 := Fun(t, t);
    case Return(_, _) => t1 := w.result;
    case Bind(_, _, _, _) => t1 := BindParts(w, lv, mode, g, e, t);
    case Resolve(_, _) => t1 := TGenus;
    case Clama(_) | Pone(_) | Mitte(_) | Perage(_) =>
      OpTyped(w, lv, mode, g, e, t);
      t1 := FirstOfOp(w, lv, mode, g, e, t);
  }

  lemma FirstOfOp(w: World, lv: nat, mode: Mode, g: Gamma, e: Expr, t: Type) returns (t1: Type)
    requires (e.Clama? || e.Pone? || e.Mitte? || e.Perage?) && OpHasType(w, lv, mode, g, e, t)
    ensures HasType(w, lv, mode, g, First(e).value, t1) && RestHas(w, lv, mode, g, e, t, t1)
  {
    hide HasType;
    match e
    case Clama(_) => t1 := w.throw;
    case Pone(_) => t1 := w.state;
    case Mitte(m) => t1 := if HasType(w, lv, mode, g, m, TCmd) then TCmd else TPlan;
    case Perage(_) => t1 := TPlan;
  }

  // --- soundness ---

  /** The run's fixed inputs fit the world it was typed in. */
  ghost predicate FitCtx(ctx: Ctx, w: World) {
    ctx.env == EnvOf(w.fugues, ctx.env.phys) && FitProgram(w.fugues) && HasV(w, ctx.arg, w.arg) && w.tied
  }

  /** `e` has type `t` where the scope `s` is typed by `g` and `n` layers are visible. */
  ghost predicate Fit(w: World, lv: nat, mode: Mode, g: Gamma, e: Expr, t: Type, s: Scope, n: nat) {
    HasScope(w, s, g) && WellFormed(Knotted(w.fugues), e) && HasType(w, lv, mode, g, e, t) && Reads(w, lv, n, e)
  }

  lemma LookupSound(ctx: Ctx, w: World, lv: nat, mode: Mode, g: Gamma, x: Sym, t: Type, s: Scope, n: nat)
    requires FitCtx(ctx, w) && Fit(w, lv, mode, g, Var(x), t, s, n)
    ensures LookupVar(ctx.env, s, x).Some? && HasV(w, LookupVar(ctx.env, s, x).value, t)
  {
    hide HasScope, FitProgram;
    Looked(w, s, g, x);
    if FindEntry(g, x).None? {
      if B.PrimOf(x).Some? {
        BareBuiltin(w, x, t);
      } else {
        AskSound(ctx, w, x, t);
      }
    }
  }

  lemma BareBuiltin(w: World, x: Sym, t: Type)
    requires B.PrimOf(x).Some? && PrimHas(B.PrimOf(x).value, t)
    ensures HasV(w, Builtin(x, []), t)
  {
    var p := B.PrimOf(x).value;
    var a :| t == SigOf(p, a) && InstanceOk(p, a);
    assert t == Left(SigOf(p, a), 0);
  }

  lemma AskSound(ctx: Ctx, w: World, x: Sym, t: Type)
    requires FitCtx(ctx, w) && PedalType(w.fugues, x) == Some(t)
    ensures FindPedal(ctx.env.pedals, x).Some? && HasV(w, FindPedal(ctx.env.pedals, x).value, t)
  {
    hide HasV, FindPedal, PedalType;
    PedalFound(w.fugues, ctx.env.phys, x);
    LiteralHas(w, FindPedal(ctx.env.pedals, x).value);
  }

  lemma {:induction false} SoundDenote(ctx: Ctx, w: World, lv: nat, mode: Mode, g: Gamma, e: Expr, t: Type,
          s: Scope, L: seq<Layer>, fuel: nat)
    requires FitCtx(ctx, w) && Fit(w, lv, mode, g, e, t, s, |L|) && HasL(w, L)
    ensures HasR(w, t, Denote(ctx, e, s, L, fuel))
    decreases fuel, 1
  {
    hide Denote, DenoteForm, DenoteRest, Legal, Kinds, Fit, HasR, FitCtx, First, OpOf;
    Unfold(ctx, e, s, L, fuel);
    if fuel > 0 && Legal(e, Kinds(L)) {
      if First(e).None? {
        SoundForm(ctx, w, lv, mode, g, e, t, s, L, fuel);
      } else {
        SoundOperand(ctx, w, lv, mode, g, e, t, s, L, fuel);
      }
    } else {
      AbortHas(w, t, ctx.mode, OpOf(e));
    }
  }

  lemma AbortHas(w: World, t: Type, mode: Mode, op: OpKind)
    ensures HasR(w, t, Out) && HasR(w, t, Abort(WrongMode(mode, op)))
  {
  }

  lemma {:induction false} SoundOperand(ctx: Ctx, w: World, lv: nat, mode: Mode, g: Gamma, e: Expr, t: Type,
          s: Scope, L: seq<Layer>, fuel: nat)
    requires FitCtx(ctx, w) && Fit(w, lv, mode, g, e, t, s, |L|) && HasL(w, L)
    requires fuel > 0 && First(e).Some? && Legal(e, Kinds(L))
    ensures HasR(w, t, Assemble(ctx, e, s, L, fuel, FirstRes(ctx, e, s, L, fuel)))
    decreases fuel, 0
  {
    hide Denote, DenoteForm, DenoteRest, Legal, Kinds, HasV, Fit, RestFit, OpOf, First;
    var t1 := FirstFit(w, lv, mode, g, e, t, s, |L|);
    SoundDenote(ctx, w, lv, mode, g, First(e).value, t1, s, L, fuel - 1);
    var r := FirstRes(ctx, e, s, L, fuel);
    if r.Yield? && r.left > 0 {
      assert |Kinds(r.L)| == |Kinds(L)|;
      SoundRest(ctx, w, lv, mode, g, e, t, t1, s, r.v, r.L, r.left - 1);
    }
  }

  /** What follows the first operand's value of type `t1` fits too. */
  ghost predicate RestFit(w: World, lv: nat, mode: Mode, g: Gamma, e: Expr, t: Type, t1: Type, s: Scope, n: nat) {
    && First(e).Some? && HasScope(w, s, g) && WellFormed(Knotted(w.fugues), e) && RestHas(w, lv, mode, g, e, t, t1)
    && Reads(w, lv, n, e)
  }

  lemma FirstFit(w: World, lv: nat, mode: Mode, g: Gamma, e: Expr, t: Type, s: Scope, n: nat) returns (t1: Type)
    requires First(e).Some? && Fit(w, lv, mode, g, e, t, s, n) && w.tied && n > 0
    ensures Fit(w, lv, mode, g, First(e).value, t1, s, n) && RestFit(w, lv, mode, g, e, t, t1, s, n)
  {
    hide HasScope, HasType, RestHas, WellFormed, Knotted, Reads, RestFit;
    t1 := FirstHas(w, lv, mode, g, e, t);
    FirstFits(w, lv, mode, g, e, t1, s, n);
    RestFits(w, lv, mode, g, e, t, t1, s, n);
  }

  lemma FirstFits(w: World, lv: nat, mode: Mode, g: Gamma, e: Expr, t1: Type, s: Scope, n: nat)
    requires First(e).Some? && HasScope(w, s, g) && WellFormed(Knotted(w.fugues), e) && Reads(w, lv, n, e) && n > 0
    requires HasType(w, lv, mode, g, First(e).value, t1)
    ensures Fit(w, lv, mode, g, First(e).value, t1, s, n)
  {
    hide HasScope, HasType, WellFormed, Knotted, Reads;
    FirstWellFormed(Knotted(w.fugues), e);
    FirstReads(w, lv, n, e);
  }

  lemma RestFits(w: World, lv: nat, mode: Mode, g: Gamma, e: Expr, t: Type, t1: Type, s: Scope, n: nat)
    requires First(e).Some? && HasScope(w, s, g) && WellFormed(Knotted(w.fugues), e) && Reads(w, lv, n, e)
    requires RestHas(w, lv, mode, g, e, t, t1)
    ensures RestFit(w, lv, mode, g, e, t, t1, s, n)
  {
    hide HasScope, RestHas, WellFormed, Knotted, Reads;
  }

  lemma FirstReads(w: World, lv: nat, n: nat, e: Expr)
    requires n > 0 && First(e).Some? && Reads(w, lv, n, e)
    ensures Reads(w, lv, n, First(e).value)
  {
    hide AtHome;
    ReadsParts(w, lv, n, e);
    assert First(e).value in Subs(e);
    MoreRoom(w.fugues, lv, OpLege, w.dark, Room(e, n), n, First(e).value);
  }

  lemma FirstWellFormed(held: bool, e: Expr)
    requires WellFormed(held, e) && First(e).Some?
    ensures WellFormed(held, First(e).value)
  {
    hide E.Free;
  }

  lemma {:induction false} SoundForm(ctx: Ctx, w: World, lv: nat, mode: Mode, g: Gamma, e: Expr, t: Type,
          s: Scope, L: seq<Layer>, fuel: nat)
    requires FitCtx(ctx, w) && Fit(w, lv, mode, g, e, t, s, |L|) && HasL(w, L)
    requires fuel > 0 && First(e).None? && Legal(e, Kinds(L))
    ensures HasR(w, t, DenoteForm(ctx, e, s, L, fuel))
    decreases fuel, 0, 1
  {
    hide Denote, Kinds, HasV, HasScope, LookupVar, FindPedal, NameHas, Knotted, AtHome, Subs;
    ReadsParts(w, lv, |L|, e);
    PartsOf(e);
    match e
    case Lit(v) => LiteralHas(w, v);
    case Var(x) => LookupSound(ctx, w, lv, mode, g, x, t, s, |L|);
    case Arg =>
    case Ask(x) => AskSound(ctx, w, x, t);
    case Lam(x, b) => ClosureHas(w, x, b, s, t, lv, mode, g);
    case Pure(_, m) => SoundDenote(ctx, w, lv, mode, g, m, t, s, L, fuel - 1);
    case Nihil =>
    case Lege => LegeSound(w, lv, mode, g, t, L);
    case Recipe(_, _, _) => SoundRecipe(ctx, w, lv, mode, g, e, t, s, L, fuel);
    case Lift(m) =>
      BelowHas(w, L);
      SoundDenote(ctx, w, lv, Base(mode), g, m, t, s, L[1..], fuel - 1);
      RelayerHas(w, t, L, Denote(ctx, m, s, L[1..], fuel - 1), fuel - 1);
  }

  lemma LegeSound(w: World, lv: nat, mode: Mode, g: Gamma, t: Type, L: seq<Layer>)
    requires HasType(w, lv, mode, g, Lege, t) && HasL(w, L) && Legal(Lege, Kinds(L)) && Reads(w, lv, |L|, Lege)
    ensures var i := SlotOf(Lege, Kinds(L)); i.Some? && L[i.value].StateL? && HasV(w, L[i.value].cell, t)
  {
    hide HasV;
    OpTyped(w, lv, mode, g, Lege, t);
  }

  lemma BelowHas(w: World, L: seq<Layer>)
    requires HasL(w, L) && |L| >= 2
    ensures HasL(w, L[1..])
  {
    hide HasV;
  }

  lemma RelayerHas(w: World, t: Type, L: seq<Layer>, r: Res, fuel: nat)
    requires HasL(w, L) && |L| >= 2 && HasR(w, t, r) && Fits(Kinds(L[1..]), fuel, r)
    ensures HasR(w, t, Relayer(L[0], r))
  {
    hide HasV;
    if r.Yield? || r.Raise? || r.Halted? {
      assert |Kinds(r.L)| == |Kinds(L[1..])| && Kinds(r.L)[0] == Kinds(L[1..])[0];
      var L' := [L[0]] + r.L;
      assert r.L[0].StateL? <==> L[1].StateL?;
      forall i | 0 <= i < |L'| ensures L'[i].StateL? <==> L'[0].StateL? { if i > 0 { assert L'[i] == r.L[i - 1]; } }
      forall i | 0 <= i < |L'| - w.dark && L'[i].StateL? ensures HasV(w, L'[i].cell, w.state) {
        if i > 0 { assert L'[i] == r.L[i - 1]; }
      }
    }
  }

  /** The parts of the forms that have no operand to run first. */
  lemma PartsOf(e: Expr)
    ensures e.Lam? ==> e.body in Subs(e)
    ensures e.Pure? || e.Lift? || e.Recipe? ==> e.m in Subs(e)
    ensures e.Recipe? ==> e.h in Subs(e)
    ensures e.App? ==> e.a in Subs(e)
    ensures e.If? ==> e.t in Subs(e) && e.e in Subs(e)
    ensures e.Bind? ==> e.k in Subs(e)
  {
  }

  lemma {:induction false} SoundRecipe(ctx: Ctx, w: World, lv: nat, mode: Mode, g: Gamma, e: Expr, t: Type,
          s: Scope, L: seq<Layer>, fuel: nat)
    requires FitCtx(ctx, w) && Fit(w, lv, mode, g, e, t, s, |L|) && HasL(w, L)
    requires e.Recipe? && fuel > 0 && Legal(e, Kinds(L))
    ensures HasR(w, t, DenoteForm(ctx, e, s, L, fuel))
    decreases fuel, 0, 0
  {
    hide Denote, Kinds, HasV, HasScope, HasType, HasL, FitCtx, SlotOf, Knotted, Reads, Subs;
    OpTyped(w, lv, mode, g, e, t);
    ReadsParts(w, lv, |L|, e);
    PartsOf(e);
    SoundDenote(ctx, w, lv, mode, g, e.m, t, s, L, fuel - 1);
    var r := Denote(ctx, e.m, s, L, fuel - 1);
    if r.Raise? && Some(r.ch) == SlotOf(e, Kinds(L)) {
      assert |Kinds(r.L)| == |Kinds(L)|;
      ScopeSnoc(w, s, g, e.x, r.v, w.throw);
      SoundDenote(ctx, w, lv, mode, g + [Entry(e.x, w.throw)], e.h, t, s.Bind(e.x, r.v), r.L, r.left);
    }
  }

  lemma {:induction false} SoundRest(ctx: Ctx, w: World, lv: nat, mode: Mode, g: Gamma, e: Expr, t: Type,
          t1: Type, s: Scope, v: Value, L: seq<Layer>, fuel: nat)
    requires FitCtx(ctx, w) && RestFit(w, lv, mode, g, e, t, t1, s, |L|) && Legal(e, Kinds(L)) && HasV(w, v, t1) && HasL(w, L)
    ensures HasR(w, t, DenoteRest(ctx, e, s, v, L, fuel))
    decreases fuel, 3
  {
    hide Denote, DenoteApply, Kinds, HasV, HasL, HasScope, HasType, ResolveIn, Perform, FitCtx, Knotted, AnswersHave, Answers, Reads, Subs;
    ReadsParts(w, lv, |L|, e);
    PartsOf(e);
    match e
    case App(_, a) =>
      SoundDenote(ctx, w, lv, mode, g, a, t1.a, s, L, fuel);
      var r := Denote(ctx, a, s, L, fuel);
      if r.Yield? && r.left > 0 {
        SoundApply(ctx, w, v, r.v, t1, r.L, r.left - 1);
      }
    case If(_, p, q) =>
      Shaped(w, v, TBool);
      SoundDenote(ctx, w, lv, mode, g, if v.b then p else q, t, s, L, fuel);
    case Fix(f) =>
      KnotHas(w, lv, mode, g, f, s, t, |L|);
      SoundApply(ctx, w, v, SelfRef(f, s), t1, L, fuel);
    case Return(_, _) =>
    case Bind(_, _, x, k) =>
      ScopeSnoc(w, s, g, x, v, t1);
      SoundDenote(ctx, w, lv, mode, g + [Entry(x, t1)], k, t, s.Bind(x, v), L, fuel);
    case Resolve(_, _) => SoundResolve(ctx, w, lv, mode, g, e, t, s, v, L, fuel);
    case Clama(_) | Pone(_) | Mitte(_) | Perage(_) => PerformSound(w, lv, mode, g, e, t, t1, v, L, fuel);
  }

  lemma {:induction false} SoundResolve(ctx: Ctx, w: World, lv: nat, mode: Mode, g: Gamma, e: Expr, t: Type,
          s: Scope, v: Value, L: seq<Layer>, fuel: nat)
    requires FitCtx(ctx, w) && HasScope(w, s, g) && HasL(w, L) && HasV(w, v, TGenus)
    requires e.Resolve? && Legal(e, Kinds(L)) && RestHas(w, lv, mode, g, e, t, TGenus) && Reads(w, lv, |L|, e)
    ensures HasR(w, t, DenoteRest(ctx, e, s, v, L, fuel))
    decreases fuel, 2, v, 1
  {
    hide Denote, Kinds, HasV, HasL, Fit, FitCtx, RestHas, HasScope, ResolveIn;
    Shaped(w, v, TGenus);
    if ResolveIn(ctx.env, e.x, v.genus).Some? {
      var o := ResolvedFit(ctx, w, lv, mode, g, e, t, s, v.genus, |L|);
      SoundDenote(ctx, w, lv - 1, mode, g, o, t, s, L, fuel);
    }
  }

  /** An overload fits the scope of the score that resolves it. */
  lemma ResolvedFit(ctx: Ctx, w: World, lv: nat, mode: Mode, g: Gamma, e: Expr, t: Type, s: Scope,
          genus: Sym, n: nat) returns (o: Expr)
    requires FitCtx(ctx, w) && HasScope(w, s, g) && e.Resolve? && RestHas(w, lv, mode, g, e, t, TGenus)
    requires ResolveIn(ctx.env, e.x, genus).Some? && Reads(w, lv, n, e)
    ensures o == ResolveIn(ctx.env, e.x, genus).value && lv > 0 && Fit(w, lv - 1, mode, g, o, t, s, n)
  {
    hide HasV, HasScope, HasType, ResolveIn, AnswersHave, Answers, WellFormed, Knotted, Subs;
    o := ResolveIn(ctx.env, e.x, genus).value;
    ResolvedIsAnswer(w.fugues, ctx.env.phys, e.x, genus);
    ListedMentions(Answers(w.fugues), e.x, o);
    AnswerHas(w, lv - 1, mode, g, Answers(w.fugues), e.x, t, o);
  }

  lemma PerformSound(w: World, lv: nat, mode: Mode, g: Gamma, e: Expr, t: Type, t1: Type, v: Value,
          L: seq<Layer>, fuel: nat)
    requires (e.Clama? || e.Pone? || e.Mitte? || e.Perage?) && Legal(e, Kinds(L))
    requires RestHas(w, lv, mode, g, e, t, t1) && HasV(w, v, t1) && HasL(w, L)
    ensures HasR(w, t, Perform(e, v, L, fuel))
  {
    hide HasL, HasType, Kinds;
    Shaped(w, v, t1);
    var i := SlotOf(e, Kinds(L)).value;
    if e.Pone? { Overwritten(w, L, i, StateL(v)); }
    if e.Mitte? && (v.CmdV? || v.PlanV?) {
      Overwritten(w, L, i, WriterL(L[i].plan + if v.CmdV? then [v.cmd] else v.plan));
    }
  }

  /** A layer is overwritten by one of its kind. */
  lemma Overwritten(w: World, L: seq<Layer>, i: nat, l: Layer)
    requires HasL(w, L) && i < |L| && KindOf(L[i]) == KindOf(l) && (l.StateL? ==> HasV(w, l.cell, w.state))
    ensures HasL(w, L[i := l])
  {
    hide HasV;
  }

  lemma {:induction false} SoundApply(ctx: Ctx, w: World, fun: Value, arg: Value, t: Type, L: seq<Layer>, fuel: nat)
    requires FitCtx(ctx, w) && t.Fun? && HasV(w, fun, t) && HasV(w, arg, t.a) && HasL(w, L)
    ensures HasR(w, t.r, DenoteApply(ctx, fun, arg, L, fuel))
    decreases fuel, 2, fun, 1
  {
    hide Denote, HasScope, HasType, WellFormed, Knotted, FitProgram, AtHome;
    Shaped(w, fun, t);
    if fun.Closure? {
      var x, b, env := fun.param, fun.body, fun.env;
      var lv, mode, g :| HasScope(w, env, g) && BodyHas(w, lv, mode, g, x, b, t);
      ScopeSnoc(w, env, g, x, arg, t.a);
      MoreRoom(w.fugues, lv, OpLege, w.dark, 1, |L|, b);
      SoundDenote(ctx, w, lv, mode, g + [Entry(x, t.a)], b, t.r, env.Bind(x, arg), L, fuel);
    } else {
      SoundCall(ctx, w, fun, arg, t, L, fuel);
    }
  }

  lemma {:induction false} LeftParam(sig: Type, n: nat)
    requires Left(sig, n).Fun?
    ensures Param(sig, n) == Left(sig, n).a && Left(sig, n + 1) == Left(sig, n).r
  {
    if n > 0 {
      LeftParam(sig.r, n - 1);
    } else {
      assert Left(sig, 1) == Left(sig.r, 0);
    }
  }

  /** One more argument, and the instance of the builtin that takes it. */
  lemma ArgsSnoc(w: World, fun: Value, arg: Value, t: Type) returns (a: Type)
    requires fun.Builtin? && t.Fun? && HasV(w, fun, t) && HasV(w, arg, t.a)
    ensures B.PrimOf(fun.name).Some? && |fun.args| < B.ArityOf(B.PrimOf(fun.name).value)
    ensures var p := B.PrimOf(fun.name).value;
            ArgsHave(w, p, a, fun.args + [arg]) && t.r == Left(SigOf(p, a), |fun.args| + 1)
  {
    hide B.PrimOf, B.ArityOf, SigOf, Param, Left;
    var p := B.PrimOf(fun.name).value;
    a :| InstanceOk(p, a) && t == Left(SigOf(p, a), |fun.args|)
         && forall i :: 0 <= i < |fun.args| ==> HasV(w, fun.args[i], Param(SigOf(p, a), i));
    LeftParam(SigOf(p, a), |fun.args|);
    var all := fun.args + [arg];
    forall i | 0 <= i < |all| ensures HasV(w, all[i], Param(SigOf(p, a), i)) {
      if i < |fun.args| { assert all[i] == fun.args[i]; }
    }
  }

  lemma PartialHas(w: World, name: Sym, p: B.Prim, a: Type, args: seq<Value>)
    requires B.PrimOf(name) == Some(p) && |args| < B.ArityOf(p) && ArgsHave(w, p, a, args)
    ensures HasV(w, Builtin(name, args), Left(SigOf(p, a), |args|))
  {
    hide B.PrimOf, B.ArityOf, SigOf, Param, Left;
  }

  lemma {:induction false} SoundCall(ctx: Ctx, w: World, fun: Value, arg: Value, t: Type, L: seq<Layer>, fuel: nat)
    requires FitCtx(ctx, w) && fun.Builtin? && t.Fun? && HasV(w, fun, t) && HasV(w, arg, t.a) && HasL(w, L)
    ensures HasR(w, t.r, DenoteApply(ctx, fun, arg, L, fuel))
    decreases fuel, 2, fun, 0
  {
    hide Denote, HasL, HasV, FitCtx, ArgsHave, B.PrimOf, B.ArityOf, SigOf, Param, Left, B.Call, Post;
    var a := ArgsSnoc(w, fun, arg, t);
    var p := B.PrimOf(fun.name).value;
    var all := fun.args + [arg];
    if |all| < B.ArityOf(p) {
      PartialHas(w, fun.name, p, a, all);
    } else if p.Solve? {
      SolveArgs(w, a, all);
      SoundApply(ctx, w, fun.args[0], arg, Fun(a, TNum), L, fuel);
      PostHas(w, ctx.env.phys, DenoteApply(ctx, fun.args[0], arg, L, fuel));
    } else {
      CallSound(w, ctx.env.phys, p, a, all);
      LiteralHas(w, B.Call(ctx.env.phys, p, all).v);
    }
  }

  lemma SolveArgs(w: World, a: Type, args: seq<Value>)
    requires |args| == B.ArityOf(B.Solve) && ArgsHave(w, B.Solve, a, args)
    ensures |args| == 2 && HasV(w, args[0], Fun(a, TNum)) && HasV(w, args[1], a)
    ensures Left(SigOf(B.Solve, a), 2) == TNum
  {
    hide HasV;
    var sig := SigOf(B.Solve, a);
    assert Param(sig, 0) == Fun(a, TNum) && Param(sig, 1) == Param(sig.r, 0) == a;
    assert Left(sig, 2) == Left(sig.r, 1) == Left(sig.r.r, 0);
  }

  lemma PostHas(w: World, ph: Physics, r: Res)
    requires HasR(w, TNum, r)
    ensures HasR(w, TNum, Post(ph, r))
  {
    hide HasL;
    if r.Yield? { Shaped(w, r.v, TNum); }
  }
}
