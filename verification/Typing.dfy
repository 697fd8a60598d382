/** Declarative typing, and the proof that inference decides it: every closing of the final
    substitution types the expression, and every typing is such a closing. */
module Typing {
  import opened Core
  import opened Unification
  import opened Inference
  import B = Builtins

  /** The types a builtin may be used at. */
  ghost predicate PrimHas(p: B.Prim, t: Type) {
    exists a :: t == SigOf(p, a) && (p.Corpus? ==> a.TGenus? || a.TStr?)
  }

  ghost predicate NameHas(w: World, g: Gamma, x: Sym, t: Type) {
    match FindEntry(g, x)
    case Some(u) => t == u
    case None =>
      match B.PrimOf(x)
      case Some(p) => PrimHas(p, t)
      case None => PedalType(w.fugues, x) == Some(t)
  }

  /** `e` has type `t` where `g` types its scope; `lv` bounds the nesting of overloads. */
  ghost predicate HasType(w: World, lv: nat, mode: Mode, g: Gamma, e: Expr, t: Type)
    decreases lv, 0, e, 1
  {
    match e
    case Lit(v) => t == TypeOfValue(v)
    case Var(x) => NameHas(w, g, x, t)
    case Arg => t == w.arg
    case Ask(x) => PedalType(w.fugues, x) == Some(t)
    case Pure(_, m) => HasType(w, lv, mode, g, m, t)
    case Lift(m) => mode.Allows(OpLift) && HasType(w, lv, Base(mode), g, m, t)
    case Lam(x, body) => t.Fun? && HasType(w, lv, mode, g + [Entry(x, t.a)], body, t.r)
    case App(f, a) => exists u :: HasType(w, lv, mode, g, f, Fun(u, t)) && HasType(w, lv, mode, g, a, u)
    case If(b, p, q) => HasType(w, lv, mode, g, b, TBool) && HasType(w, lv, mode, g, p, t) && HasType(w, lv, mode, g, q, t)
    case Fix(f) => (w.tied ==> t.Fun?) && HasType(w, lv, mode, g, f, Fun(t, t))
    case Return(_, m) => HasType(w, lv, mode, g, m, w.result)
    case Bind(_, m, x, k) =>
      exists u :: HasType(w, lv, mode, g, m, u) && HasType(w, lv, mode, g + [Entry(x, u)], k, t)
    case Resolve(x, n) =>
      && HasType(w, lv, mode, g, n, TGenus)
      && (Mentions(Answers(w.fugues), x) ==> lv > 0 && AnswersHave(w, lv - 1, mode, g, Answers(w.fugues), x, t))
    case _ => OpHasType(w, lv, mode, g, e, t)
  }

  ghost predicate OpHasType(w: World, lv: nat, mode: Mode, g: Gamma, e: Expr, t: Type)
    requires IsOp(e)
    decreases lv, 0, e, 0
  {
    match e
    case Nihil => mode.Allows(OpNihil)
    case Clama(m) => mode.Allows(OpClama) && HasType(w, lv, mode, g, m, w.throw)
    case Recipe(m, x, h) =>
      mode.Allows(OpRecipe) && HasType(w, lv, mode, g, m, t) && HasType(w, lv, mode, g + [Entry(x, w.throw)], h, t)
    case Lege => mode.Allows(OpLege) && t == w.state
    case Pone(m) => mode.Allows(OpPone) && HasType(w, lv, mode, g, m, w.state) && t == TUnit
    case Mitte(m) =>
      && mode.Allows(OpMitte)
      && (HasType(w, lv, mode, g, m, TCmd) || HasType(w, lv, mode, g, m, TPlan))
      && t == TUnit
    case Perage(m) => mode.Allows(OpPerage) && HasType(w, lv, mode, g, m, TPlan) && w.result == TUnit
  }

  lemma OpTyped(w: World, lv: nat, mode: Mode, g: Gamma, e: Expr, t: Type)
    requires IsOp(e)
    ensures HasType(w, lv, mode, g, e, t) <==> OpHasType(w, lv, mode, g, e, t)
  {
  }

  /** Every answer for the name has the type. */
  ghost predicate AnswersHave(w: World, lv: nat, mode: Mode, g: Gamma, os: seq<Overload>, x: Sym, t: Type)
    decreases lv, 1, |os|
  {
    os == [] ||
      ((os[0].name == x ==> HasType(w, lv, mode, g, os[0].body, t)) && AnswersHave(w, lv, mode, g, os[1..], x, t))
  }

  // --- one step of a typing, taken apart and put together ---

  lemma AppParts(w: World, lv: nat, mode: Mode, g: Gamma, e: Expr, t: Type) returns (u: Type)
    requires e.App? && HasType(w, lv, mode, g, e, t)
    ensures HasType(w, lv, mode, g, e.f, Fun(u, t)) && HasType(w, lv, mode, g, e.a, u)
  {
    u :| HasType(w, lv, mode, g, e.f, Fun(u, t)) && HasType(w, lv, mode, g, e.a, u);
  }

  lemma AppWhole(w: World, lv: nat, mode: Mode, g: Gamma, e: Expr, t: Type, u: Type)
    requires e.App? && HasType(w, lv, mode, g, e.f, Fun(u, t)) && HasType(w, lv, mode, g, e.a, u)
    ensures HasType(w, lv, mode, g, e, t)
  {
  }

  lemma IfParts(w: World, lv: nat, mode: Mode, g: Gamma, e: Expr, t: Type)
    requires e.If?
    ensures HasType(w, lv, mode, g, e, t)
       <==> HasType(w, lv, mode, g, e.c, TBool) && HasType(w, lv, mode, g, e.t, t) && HasType(w, lv, mode, g, e.e, t)
  {
    hide OpHasType, PrimHas, AnswersHave, NameHas;
  }

  lemma LamParts(w: World, lv: nat, mode: Mode, g: Gamma, e: Expr, t: Type)
    requires e.Lam?
    ensures HasType(w, lv, mode, g, e, t) <==> t.Fun? && HasType(w, lv, mode, g + [Entry(e.x, t.a)], e.body, t.r)
  {
    hide OpHasType, PrimHas, AnswersHave, NameHas;
  }

  lemma FixParts(w: World, lv: nat, mode: Mode, g: Gamma, e: Expr, t: Type)
    requires e.Fix?
    ensures HasType(w, lv, mode, g, e, t) <==> (w.tied ==> t.Fun?) && HasType(w, lv, mode, g, e.f, Fun(t, t))
  {
    hide OpHasType, PrimHas, AnswersHave, NameHas;
  }

  lemma BindParts(w: World, lv: nat, mode: Mode, g: Gamma, e: Expr, t: Type) returns (u: Type)
    requires e.Bind? && HasType(w, lv, mode, g, e, t)
    ensures HasType(w, lv, mode, g, e.m, u) && HasType(w, lv, mode, g + [Entry(e.x, u)], e.k, t)
  {
    u :| HasType(w, lv, mode, g, e.m, u) && HasType(w, lv, mode, g + [Entry(e.x, u)], e.k, t);
  }

  lemma BindWhole(w: World, lv: nat, mode: Mode, g: Gamma, e: Expr, t: Type, u: Type)
    requires e.Bind? && HasType(w, lv, mode, g, e.m, u) && HasType(w, lv, mode, g + [Entry(e.x, u)], e.k, t)
    ensures HasType(w, lv, mode, g, e, t)
  {
  }

  lemma ResolveParts(w: World, lv: nat, mode: Mode, g: Gamma, e: Expr, t: Type)
    requires e.Resolve?
    ensures HasType(w, lv, mode, g, e, t)
       <==> (HasType(w, lv, mode, g, e.g, TGenus) &&
             (Mentions(Answers(w.fugues), e.x) ==> lv > 0 && AnswersHave(w, lv - 1, mode, g, Answers(w.fugues), e.x, t)))
  {
    hide AnswersHave, Answers;
  }

  // --- closing a state ---

  function SubG(th: seq<Type>, g: Gamma): (r: Gamma)
    ensures |r| == |g| && forall i :: 0 <= i < |g| ==> r[i] == Entry(g[i].x, Sub(th, g[i].t))
  {
    seq(|g|, i requires 0 <= i < |g| => Entry(g[i].x, Sub(th, g[i].t)))
  }

  function SubW(th: seq<Type>, w: World): World {
    World(w.fugues, Sub(th, w.arg), Sub(th, w.state), Sub(th, w.throw), Sub(th, w.result), w.tied, w.dark)
  }

  predicate PredsHold(th: seq<Type>, ps: seq<Pred>) {
    forall i :: 0 <= i < |ps| ==> Sub(th, ps[i].ty).Hint() in ps[i].allowed
  }

  /** A closing of a state: it satisfies the equations and the deferred predicates. */
  predicate Closes(th: seq<Type>, c: State) {
    Solves(th, c.st) && PredsHold(th, c.preds)
  }

  lemma ClosesBefore(th: seq<Type>, c: State, c': State)
    requires Grows(c, c') && Closes(th, c')
    ensures Closes(th, c)
  {
    forall i | 0 <= i < |c.st| && c.st[i].Some? ensures th[i] == Sub(th, c.st[i].value) {
      assert c'.st[i] == c.st[i];
    }
    forall i | 0 <= i < |c.preds| ensures Sub(th, c.preds[i].ty).Hint() in c.preds[i].allowed {
      assert c'.preds[i] == c.preds[i];
    }
  }

  lemma SubSnoc(th: seq<Type>, g: Gamma, x: Sym, t: Type)
    ensures SubG(th, g + [Entry(x, t)]) == SubG(th, g) + [Entry(x, Sub(th, t))]
  {
  }

  lemma {:induction false} FindSub(th: seq<Type>, g: Gamma, x: Sym)
    ensures FindEntry(SubG(th, g), x) == match FindEntry(g, x) case None => None case Some(t) => Some(Sub(th, t))
  {
    if g != [] {
      assert SubG(th, g)[..|g| - 1] == SubG(th, g[..|g| - 1]);
      FindSub(th, g[..|g| - 1], x);
    }
  }

  lemma {:induction false} PedalSub(th: seq<Type>, fugues: seq<Fugue>, x: Sym)
    ensures PedalType(fugues, x).Some? ==> Sub(th, PedalType(fugues, x).value) == PedalType(fugues, x).value
  {
    if fugues != [] { PedalSub(th, fugues[1..], x); }
  }

  lemma SubFun(th: seq<Type>, a: Type, r: Type)
    ensures Sub(th, Fun(a, r)) == Fun(Sub(th, a), Sub(th, r))
  {
  }

  lemma SigSub(th: seq<Type>, p: B.Prim, a: Type)
    ensures Sub(th, SigOf(p, a)) == SigOf(p, Sub(th, a))
  {
    forall u, v ensures Sub(th, Fun(u, v)) == Fun(Sub(th, u), Sub(th, v)) { SubFun(th, u, v); }
    assert Sub(th, TNum) == TNum && Sub(th, TBool) == TBool && Sub(th, TCorpus) == TCorpus && Sub(th, TGenus) == TGenus;
    assert Sub(th, TField) == TField && Sub(th, TPlan) == TPlan && Sub(th, TCmd) == TCmd;
  }

  /** A closed equation holds. */
  lemma Equated(th: seq<Type>, c: State, a: Type, b: Type)
    requires Good(c) && InRange(|c.st|, a) && InRange(|c.st|, b)
    requires Equate(c, a, b).Ok? && Closes(th, Equate(c, a, b).val)
    ensures Closes(th, c) && Sub(th, a) == Sub(th, b)
  {
    ClosesBefore(th, c, Equate(c, a, b).val);
    UnifyIsExact(c.st, a, b, th);
  }

  // --- inference is sound ---

  /** The result of inferring `e`, closed by `th`, is a typing. */
  ghost predicate Types(th: seq<Type>, w: World, lv: nat, mode: Mode, g: Gamma, e: Expr, t: Type) {
    HasType(SubW(th, w), lv, mode, SubG(th, g), e, Sub(th, t))
  }

  lemma NameSound(th: seq<Type>, w: World, lv: nat, mode: Mode, g: Gamma, x: Sym, c: State)
    requires Ready(w, g, c)
    requires var r := LookupType(w, g, x, c); r.Ok? && Closes(th, r.val.1)
    ensures Types(th, w, lv, mode, g, Var(x), LookupType(w, g, x, c).val.0)
  {
    hide Unify, Acyclic;
    FindSub(th, g, x);
    PedalSub(th, w.fugues, x);
    if FindEntry(g, x).None? && B.PrimOf(x).Some? {
      var p := B.PrimOf(x).value;
      var (t, c') := BuiltinType(p, c);
      var a := if Poly(p) then TVar(|c.st|) else TUnit;
      SigSub(th, p, a);
      if p.Corpus? {
        assert c'.preds[|c.preds|] == Pred(a, GENUS_OR_STR, GenusH);
        assert Sub(th, a).Hint() in GENUS_OR_STR;
      }
      assert Sub(th, t) == SigOf(p, Sub(th, a));
    }
  }

  lemma {:induction false} InferSound(th: seq<Type>, w: World, lv: nat, mode: Mode, g: Gamma, e: Expr, c: State)
    requires Ready(w, g, c)
    requires var r := Infer(w, lv, mode, g, e, c); r.Ok? && Closes(th, r.val.1)
    ensures Types(th, w, lv, mode, g, e, Infer(w, lv, mode, g, e, c).val.0)
    decreases lv, 0, e, 2
  {
    hide InferFunctional, InferSequential, InferOp, LookupType, Acyclic, Solves, PredsHold, GammaIn, WorldIn, Extends;
    match e
    case Var(x) => NameSound(th, w, lv, mode, g, x, c);
    case Ask(x) => PedalSub(th, w.fugues, x);
    case Pure(_, m) => InferSound(th, w, lv, mode, g, m, c);
    case Lift(m) => InferSound(th, w, lv, Base(mode), g, m, c);
    case Lam(_, _) | App(_, _) | If(_, _, _) | Fix(_) => FunctionalSound(th, w, lv, mode, g, e, c);
    case Return(_, _) | Bind(_, _, _, _) | Resolve(_, _) => SequentialSound(th, w, lv, mode, g, e, c);
    case Lit(_) | Arg =>
    case _ => OpSound(th, w, lv, mode, g, e, c);
  }

  lemma {:induction false} ExpectSound(th: seq<Type>, w: World, lv: nat, mode: Mode, g: Gamma, e: Expr,
          want: Type, c: State)
    requires Ready(w, g, c) && InRange(|c.st|, want)
    requires var r := Expect(w, lv, mode, g, e, want, c); r.Ok? && Closes(th, r.val.1)
    ensures Types(th, w, lv, mode, g, e, want) && Closes(th, c)
    ensures Sub(th, Expect(w, lv, mode, g, e, want, c).val.0) == Sub(th, want)
    decreases lv, 0, e, 3
  {
    hide Infer, Acyclic, Solves, PredsHold, GammaIn, WorldIn, Extends, InRange, HasType, Equate;
    var (t, c1) := Infer(w, lv, mode, g, e, c).val;
    Widens(c, c1, want);
    Equated(th, c1, t, want);
    InferSound(th, w, lv, mode, g, e, c);
    ClosesBefore(th, c, c1);
  }

  lemma {:induction false} AgreeSound(th: seq<Type>, w: World, lv: nat, mode: Mode, g: Gamma, e: Expr,
          first: Type, c: State)
    requires Ready(w, g, c) && InRange(|c.st|, first)
    requires var r := Agree(w, lv, mode, g, e, first, c); r.Ok? && Closes(th, r.val)
    ensures Types(th, w, lv, mode, g, e, first) && Closes(th, c)
    decreases lv, 0, e, 3
  {
    hide Infer, Acyclic, Solves, PredsHold, GammaIn, WorldIn, Extends, InRange, HasType, Equate;
    var (t, c1) := Infer(w, lv, mode, g, e, c).val;
    Widens(c, c1, first);
    Equated(th, c1, first, t);
    InferSound(th, w, lv, mode, g, e, c);
    ClosesBefore(th, c, c1);
  }

  lemma {:induction false} FunctionalSound(th: seq<Type>, w: World, lv: nat, mode: Mode, g: Gamma, e: Expr, c: State)
    requires Ready(w, g, c) && (e.Lam? || e.App? || e.If? || e.Fix?)
    requires var r := InferFunctional(w, lv, mode, g, e, c); r.Ok? && Closes(th, r.val.1)
    ensures Types(th, w, lv, mode, g, e, InferFunctional(w, lv, mode, g, e, c).val.0)
    decreases lv, 0, e, 0
  {
    hide Infer, Expect, Agree, Acyclic, Solves, PredsHold, WorldIn, Extends, Equate;
    match e
    case Lam(x, body) =>
      var (a, c1) := Fresh(c);
      GrowsOn(w, g, c, c1);
      InferSound(th, w, lv, mode, g + [Entry(x, a)], body, c1);
      SubSnoc(th, g, x, a);
    case App(f, a) =>
      var (tf, c1) := Infer(w, lv, mode, g, f, c).val;
      GrowsOn(w, g, c, c1);
      var (ta, c2) := Infer(w, lv, mode, g, a, c1).val;
      var (t, c3) := Fresh(c2);
      Widens(c1, c2, tf);
      Widens(c2, c3, tf);
      Widens(c2, c3, ta);
      Equated(th, c3, tf, Fun(ta, t));
      ClosesBefore(th, c2, c3);
      ClosesBefore(th, c1, c2);
      InferSound(th, w, lv, mode, g, f, c);
      InferSound(th, w, lv, mode, g, a, c1);
    case If(b, p, q) =>
      var (_, c1) := Expect(w, lv, mode, g, b, TBool, c).val;
      GrowsOn(w, g, c, c1);
      var (tt, c2) := Infer(w, lv, mode, g, p, c1).val;
      GrowsOn(w, g, c1, c2);
      AgreeSound(th, w, lv, mode, g, q, tt, c2);
      InferSound(th, w, lv, mode, g, p, c1);
      ClosesBefore(th, c1, c2);
      ExpectSound(th, w, lv, mode, g, b, TBool, c);
    case Fix(f) => FixSound(th, w, lv, mode, g, f, c);
  }

  /** A closed predicate holds. */
  lemma Deferred(th: seq<Type>, c: State, p: Pred)
    requires Good(c) && InRange(|c.st|, p.ty) && Closes(th, Defer(c, p))
    ensures Closes(th, c) && Sub(th, p.ty).Hint() in p.allowed
  {
    ClosesBefore(th, c, Defer(c, p));
    assert Defer(c, p).preds[|c.preds|] == p;
  }

  lemma {:induction false} FixSound(th: seq<Type>, w: World, lv: nat, mode: Mode, g: Gamma, f: Expr, c: State)
    requires Ready(w, g, c)
    requires var r := InferFunctional(w, lv, mode, g, Fix(f), c); r.Ok? && Closes(th, r.val.1)
    ensures Types(th, w, lv, mode, g, Fix(f), InferFunctional(w, lv, mode, g, Fix(f), c).val.0)
    decreases lv, 0, f, 3
  {
    hide Infer, Acyclic, Solves, PredsHold, WorldIn, Extends, Equate;
    var (tf, c1) := Infer(w, lv, mode, g, f, c).val;
    var (a, c2) := Fresh(c1);
    Widens(c1, c2, tf);
    var c3 := Equate(c2, tf, Fun(a, a)).val;
    if w.tied {
      Deferred(th, c3, Pred(a, FUN_ONLY, ClosureH));
      OnlyFun(Sub(th, a));
    }
    Equated(th, c2, tf, Fun(a, a));
    ClosesBefore(th, c1, c2);
    InferSound(th, w, lv, mode, g, f, c);
  }

  lemma OnlyFun(t: Type)
    ensures t.Hint() in FUN_ONLY <==> t.Fun?
  {
  }

  lemma {:induction false} StmtSound(th: seq<Type>, w: World, lv: nat, mode: Mode, g: Gamma, m: Expr, c: State)
    requires Ready(w, g, c)
    requires var r := InferStmt(w, lv, mode, g, m, c); r.Ok? && Closes(th, r.val.c)
    ensures Types(th, w, lv, mode, g, m, InferStmt(w, lv, mode, g, m, c).val.bound)
    decreases lv, 0, m, 5
  {
    hide Expect, Infer, HasType, Acyclic, GammaIn, WorldIn, Extends, Solves, PredsHold;
    match m
    case Pone(e) => PoneSound(th, w, lv, mode, g, e, c);
    case Mitte(e) => MitteSound(th, w, lv, mode, g, e, c);
    case _ => InferSound(th, w, lv, mode, g, m, c);
  }

  lemma {:induction false} PoneSound(th: seq<Type>, w: World, lv: nat, mode: Mode, g: Gamma, m: Expr, c: State)
    requires Ready(w, g, c) && mode.Allows(OpPone)
    requires var r := Expect(w, lv, mode, g, m, w.state, c); r.Ok? && Closes(th, r.val.1)
    ensures Types(th, w, lv, mode, g, Pone(m), TUnit)
    decreases lv, 0, m, 4
  {
    hide Expect, HasType, Acyclic, GammaIn, Extends, Solves, PredsHold;
    OpTyped(SubW(th, w), lv, mode, SubG(th, g), Pone(m), TUnit);
    ExpectSound(th, w, lv, mode, g, m, w.state, c);
  }

  lemma {:induction false} MitteSound(th: seq<Type>, w: World, lv: nat, mode: Mode, g: Gamma, m: Expr, c: State)
    requires Ready(w, g, c) && Infer(w, lv, mode, g, m, c).Ok? && mode.Allows(OpMitte)
    requires var (t, c1) := Infer(w, lv, mode, g, m, c).val; Closes(th, Defer(c1, Pred(t, CMD_OR_PLAN, CmdH)))
    ensures Types(th, w, lv, mode, g, Mitte(m), TUnit)
    decreases lv, 0, m, 3
  {
    hide Infer, HasType, Acyclic, GammaIn, WorldIn, Extends, Solves;
    OpTyped(SubW(th, w), lv, mode, SubG(th, g), Mitte(m), TUnit);
    var (t, c1) := Infer(w, lv, mode, g, m, c).val;
    var c2 := Defer(c1, Pred(t, CMD_OR_PLAN, CmdH));
    ClosesBefore(th, c1, c2);
    InferSound(th, w, lv, mode, g, m, c);
    assert c2.preds[|c1.preds|] == Pred(t, CMD_OR_PLAN, CmdH);
    assert Sub(th, t).Hint() in CMD_OR_PLAN;
  }

  lemma {:induction false} SequentialSound(th: seq<Type>, w: World, lv: nat, mode: Mode, g: Gamma, e: Expr, c: State)
    requires Ready(w, g, c) && (e.Return? || e.Bind? || e.Resolve?)
    requires var r := InferSequential(w, lv, mode, g, e, c); r.Ok? && Closes(th, r.val.1)
    ensures Types(th, w, lv, mode, g, e, InferSequential(w, lv, mode, g, e, c).val.0)
    decreases lv, 0, e, 0
  {
    hide Infer, Expect, InferStmt, InferAnswers, Acyclic, Solves, PredsHold, Extends;
    match e
    case Return(_, m) =>
      var (_, c1) := Expect(w, lv, mode, g, m, w.result, c).val;
      ClosesBefore(th, c1, Fresh(c1).1);
      ExpectSound(th, w, lv, mode, g, m, w.result, c);
    case Bind(_, m, x, k) =>
      var stmt := InferStmt(w, lv, mode, g, m, c).val;
      GrowsOn(w, g, c, stmt.c);
      var (t, c2) := Infer(w, lv, mode, g + [Entry(x, stmt.bound)], k, stmt.c).val;
      InferSound(th, w, lv, mode, g + [Entry(x, stmt.bound)], k, stmt.c);
      ClosesBefore(th, stmt.c, c2);
      StmtSound(th, w, lv, mode, g, m, c);
      SubSnoc(th, g, x, stmt.bound);
    case Resolve(x, n) =>
      var (_, c1) := Expect(w, lv, mode, g, n, TGenus, c).val;
      var (t, c2) := Fresh(c1);
      GrowsTrans(c, c1, c2);
      GrowsOn(w, g, c, c2);
      if Mentions(Answers(w.fugues), x) {
        AnswersSound(th, w, lv - 1, mode, g, Answers(w.fugues), x, t, c2);
      }
      ClosesBefore(th, c1, c2);
      ExpectSound(th, w, lv, mode, g, n, TGenus, c);
  }

  lemma {:induction false} AnswersSound(th: seq<Type>, w: World, lv: nat, mode: Mode, g: Gamma,
          os: seq<Overload>, x: Sym, want: Type, c: State)
    requires Ready(w, g, c) && InRange(|c.st|, want)
    requires var r := InferAnswers(w, lv, mode, g, os, x, want, c); r.Ok? && Closes(th, r.val)
    ensures AnswersHave(SubW(th, w), lv, mode, SubG(th, g), os, x, Sub(th, want)) && Closes(th, c)
    decreases lv, 1, |os|
  {
    hide Expect, Acyclic, Solves, PredsHold, Extends, GammaIn, WorldIn, HasType, InRange;
    if os != [] {
      if os[0].name != x {
        AnswersSound(th, w, lv, mode, g, os[1..], x, want, c);
      } else {
        var (_, c1) := Expect(w, lv, mode, g, os[0].body, want, c).val;
        GrowsOn(w, g, c, c1);
        Widens(c, c1, want);
        AnswersSound(th, w, lv, mode, g, os[1..], x, want, c1);
        ExpectSound(th, w, lv, mode, g, os[0].body, want, c);
      }
    }
  }

  lemma {:induction false} OpSound(th: seq<Type>, w: World, lv: nat, mode: Mode, g: Gamma, e: Expr, c: State)
    requires Ready(w, g, c) && IsOp(e)
    requires var r := InferOp(w, lv, mode, g, e, c); r.Ok? && Closes(th, r.val.1)
    ensures Types(th, w, lv, mode, g, e, InferOp(w, lv, mode, g, e, c).val.0)
    decreases lv, 0, e, 0
  {
    hide Infer, Expect, Agree, HasType, Acyclic, Solves, PredsHold, Extends, Equate;
    match e
    case Clama(m) =>
      OpTyped(SubW(th, w), lv, mode, SubG(th, g), e, Sub(th, InferOp(w, lv, mode, g, e, c).val.0));
      ClosesBefore(th, Expect(w, lv, mode, g, m, w.throw, c).val.1, InferOp(w, lv, mode, g, e, c).val.1);
      ExpectSound(th, w, lv, mode, g, m, w.throw, c);
    case Recipe(m, x, h) => RecipeSound(th, w, lv, mode, g, m, x, h, c);
    case Pone(m) => PoneSound(th, w, lv, mode, g, m, c);
    case Mitte(m) => MitteSound(th, w, lv, mode, g, m, c);
    case Perage(m) => PerageSound(th, w, lv, mode, g, m, c);
    case Nihil | Lege => OpTyped(SubW(th, w), lv, mode, SubG(th, g), e, Sub(th, InferOp(w, lv, mode, g, e, c).val.0));
  }

  lemma {:induction false} RecipeSound(th: seq<Type>, w: World, lv: nat, mode: Mode, g: Gamma, m: Expr, x: Sym,
          h: Expr, c: State)
    requires Ready(w, g, c)
    requires var r := InferOp(w, lv, mode, g, Recipe(m, x, h), c); r.Ok? && Closes(th, r.val.1)
    ensures Types(th, w, lv, mode, g, Recipe(m, x, h), InferOp(w, lv, mode, g, Recipe(m, x, h), c).val.0)
    decreases lv, 0, Recipe(m, x, h), 0, 0
  {
    hide Infer, Agree, HasType, Acyclic, Solves, PredsHold, Extends;
    var (t, c1) := Infer(w, lv, mode, g, m, c).val;
    OpTyped(SubW(th, w), lv, mode, SubG(th, g), Recipe(m, x, h), Sub(th, t));
    GrowsOn(w, g, c, c1);
    AgreeSound(th, w, lv, mode, g + [Entry(x, w.throw)], h, t, c1);
    InferSound(th, w, lv, mode, g, m, c);
    SubSnoc(th, g, x, w.throw);
  }

  lemma {:induction false} PerageSound(th: seq<Type>, w: World, lv: nat, mode: Mode, g: Gamma, m: Expr, c: State)
    requires Ready(w, g, c)
    requires var r := InferOp(w, lv, mode, g, Perage(m), c); r.Ok? && Closes(th, r.val.1)
    ensures Types(th, w, lv, mode, g, Perage(m), InferOp(w, lv, mode, g, Perage(m), c).val.0)
    decreases lv, 0, Perage(m), 0, 0
  {
    hide Infer, Expect, HasType, Acyclic, Solves, PredsHold, Extends, Equate;
    var r := InferOp(w, lv, mode, g, Perage(m), c).val;
    var (_, c1) := Expect(w, lv, mode, g, m, TPlan, c).val;
    OpTyped(SubW(th, w), lv, mode, SubG(th, g), Perage(m), Sub(th, r.0));
    Widens(c, c1, w.result);
    ClosesBefore(th, Equate(c1, TUnit, w.result).val, r.1);
    Equated(th, c1, TUnit, w.result);
    ExpectSound(th, w, lv, mode, g, m, TPlan, c);
  }
}
