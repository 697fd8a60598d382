/** Inference is complete: whatever typing an expression has, inference succeeds and finds a
    type of which that typing is an instance. With soundness this makes it principal. */
module Principal {
  import opened Core
  import opened Unification
  import opened Inference
  import opened Typing
  import B = Builtins

  /** `th'` extends `th` to a closing of the result, at the type `tau`. */
  ghost predicate Finds(th: seq<Type>, r: Checked<Typed>, th': seq<Type>, tau: Type) {
    && r.Ok?
    && Reaches(th, r.val.1, th')
    && Sub(th', r.val.0) == tau
  }

  ghost predicate Reaches(th: seq<Type>, c: State, th': seq<Type>) {
    && th <= th'
    && |th'| == |c.st|
    && Closes(th', c)
  }

  ghost predicate Closed(th: seq<Type>, w: World, g: Gamma, c: State) {
    Ready(w, g, c) && |th| == |c.st| && Closes(th, c)
  }

  lemma SubLonger(th: seq<Type>, th': seq<Type>, w: World, g: Gamma)
    requires th <= th' && GammaIn(|th|, g) && WorldIn(|th|, w)
    ensures SubW(th', w) == SubW(th, w) && SubG(th', g) == SubG(th, g)
  {
    Longer(th, th', w.arg);
    Longer(th, th', w.state);
    Longer(th, th', w.throw);
    Longer(th, th', w.result);
    forall i | 0 <= i < |g| ensures Sub(th', g[i].t) == Sub(th, g[i].t) { Longer(th, th', g[i].t); }
  }

  lemma FreshCloses(th: seq<Type>, c: State, t: Type)
    requires Good(c) && |th| == |c.st| && Closes(th, c)
    ensures Reaches(th, Fresh(c).1, th + [t]) && Sub(th + [t], Fresh(c).0) == t
  {
    var th', c' := th + [t], Fresh(c).1;
    forall i | 0 <= i < |c'.st| && c'.st[i].Some? ensures th'[i] == Sub(th', c'.st[i].value) {
      RankedIn(c.st, i);
      Longer(th, th', c.st[i].value);
    }
    forall i | 0 <= i < |c.preds| ensures Sub(th', c.preds[i].ty) == Sub(th, c.preds[i].ty) { Longer(th, th', c.preds[i].ty); }
  }

  lemma RankedIn(st: Subst, i: nat)
    requires Acyclic(st) && i < |st| && st[i].Some?
    ensures InRange(|st|, st[i].value)
  {
    assert Ranked(st, RankOf(st));
  }

  lemma EquateCloses(th: seq<Type>, c: State, a: Type, b: Type)
    requires Good(c) && InRange(|c.st|, a) && InRange(|c.st|, b) && |th| == |c.st| && Closes(th, c)
    requires Sub(th, a) == Sub(th, b)
    ensures Equate(c, a, b).Ok? && Reaches(th, Equate(c, a, b).val, th)
  {
    hide Unify;
    UnifyIsExact(c.st, a, b, th);
  }

  lemma DeferCloses(th: seq<Type>, c: State, p: Pred)
    requires Good(c) && InRange(|c.st|, p.ty) && |th| == |c.st| && Closes(th, c) && Sub(th, p.ty).Hint() in p.allowed
    ensures Reaches(th, Defer(c, p), th)
  {
  }

  lemma NameComplete(th: seq<Type>, w: World, g: Gamma, x: Sym, tau: Type, c: State) returns (th': seq<Type>)
    requires Closed(th, w, g, c) && NameHas(SubW(th, w), SubG(th, g), x, tau)
    ensures Finds(th, LookupType(w, g, x, c), th', tau)
  {
    hide Acyclic, Solves;
    th' := th;
    FindSub(th, g, x);
    PedalSub(th, w.fugues, x);
    if FindEntry(g, x).None? && B.PrimOf(x).Some? {
      th' := PrimComplete(th, B.PrimOf(x).value, tau, c);
    }
  }

  lemma PrimComplete(th: seq<Type>, p: B.Prim, tau: Type, c: State) returns (th': seq<Type>)
    requires Good(c) && |th| == |c.st| && Closes(th, c) && PrimHas(p, tau)
    ensures Reaches(th, BuiltinType(p, c).1, th') && Sub(th', BuiltinType(p, c).0) == tau
  {
    hide Acyclic, Solves, SigOf;
    var a :| tau == SigOf(p, a) && (p.Corpus? ==> a.TGenus? || a.TStr?);
    if Poly(p) {
      th' := th + [a];
      FreshCloses(th, c, a);
      var (v, c1) := Fresh(c);
      if p.Corpus? { DeferCloses(th', c1, Pred(v, GENUS_OR_STR, GenusH)); }
      SigSub(th', p, v);
    } else {
      th' := th;
      SigSub(th, p, TUnit);
      SigMono(p, a);
    }
  }

  lemma SigMono(p: B.Prim, a: Type)
    requires !Poly(p)
    ensures SigOf(p, a) == SigOf(p, TUnit)
  {
  }

  lemma {:induction false} InferComplete(th: seq<Type>, w: World, lv: nat, mode: Mode, g: Gamma, e: Expr,
          tau: Type, c: State)
    returns (th': seq<Type>)
    requires Closed(th, w, g, c) && HasType(SubW(th, w), lv, mode, SubG(th, g), e, tau)
    ensures Finds(th, Infer(w, lv, mode, g, e, c), th', tau)
    decreases lv, 0, e, 2
  {
    hide InferFunctional, InferSequential, InferOp, HasType, Closes, Good, GammaIn, WorldIn, Extends, LookupType, AskType, Sub;
    match e
    case Lam(_, _) | App(_, _) | If(_, _, _) | Fix(_) => th' := FunctionalComplete(th, w, lv, mode, g, e, tau, c);
    case Return(_, _) | Bind(_, _, _, _) | Resolve(_, _) => th' := SequentialComplete(th, w, lv, mode, g, e, tau, c);
    case Lit(_) | Arg | Var(_) | Ask(_) | Pure(_, _) | Lift(_) => th' := AtomComplete(th, w, lv, mode, g, e, tau, c);
    case _ => th' := OpComplete(th, w, lv, mode, g, e, tau, c);
  }

  lemma {:induction false} AtomComplete(th: seq<Type>, w: World, lv: nat, mode: Mode, g: Gamma, e: Expr,
          tau: Type, c: State)
    returns (th': seq<Type>)
    requires Closed(th, w, g, c) && HasType(SubW(th, w), lv, mode, SubG(th, g), e, tau)
    requires e.Lit? || e.Arg? || e.Var? || e.Ask? || e.Pure? || e.Lift?
    ensures Finds(th, Infer(w, lv, mode, g, e, c), th', tau)
    decreases lv, 0, e, 1
  {
    hide OpHasType, NameHas, LookupType, Acyclic, Solves, PredsHold, GammaIn, WorldIn, Extends;
    match e
    case Var(x) => th' := NameComplete(th, w, g, x, tau, c);
    case Ask(x) =>
      th' := th;
      PedalSub(th, w.fugues, x);
    case Pure(_, m) => th' := InferComplete(th, w, lv, mode, g, m, tau, c);
    case Lift(m) => th' := InferComplete(th, w, lv, Base(mode), g, m, tau, c);
    case Lit(_) | Arg => th' := th;
  }

  /** The equation that closes two types as one can be added. */
  lemma Joins(th: seq<Type>, th': seq<Type>, c: State, c1: State, t: Type, want: Type, flip: bool)
    requires |th| == |c.st| && Grows(c, c1) && InRange(|c.st|, want) && InRange(|c1.st|, t)
    requires Reaches(th, c1, th') && Sub(th', t) == Sub(th, want)
    ensures InRange(|c1.st|, want)
    ensures var q := if flip then Equate(c1, want, t) else Equate(c1, t, want); q.Ok? && Reaches(th, q.val, th')
  {
    hide Good, Closes, Sub, Extends, InRange, Equate;
    Widens(c, c1, want);
    Longer(th, th', want);
    if flip { EquateCloses(th', c1, want, t); } else { EquateCloses(th', c1, t, want); }
  }

  lemma {:induction false} ExpectComplete(th: seq<Type>, w: World, lv: nat, mode: Mode, g: Gamma, e: Expr,
          want: Type, c: State)
    returns (th': seq<Type>)
    requires Closed(th, w, g, c) && InRange(|c.st|, want)
    requires HasType(SubW(th, w), lv, mode, SubG(th, g), e, Sub(th, want))
    ensures Finds(th, Expect(w, lv, mode, g, e, want, c), th', Sub(th, want))
    decreases lv, 0, e, 3
  {
    hide Infer, HasType, Good, Closes, Sub, SubW, SubG, GammaIn, WorldIn, Extends, InRange, Equate, Reaches, Grows;
    th' := InferComplete(th, w, lv, mode, g, e, Sub(th, want), c);
    Joins(th, th', c, Infer(w, lv, mode, g, e, c).val.1, Infer(w, lv, mode, g, e, c).val.0, want, false);
  }

  lemma {:induction false} AgreeComplete(th: seq<Type>, w: World, lv: nat, mode: Mode, g: Gamma, e: Expr,
          first: Type, c: State)
    returns (th': seq<Type>)
    requires Closed(th, w, g, c) && InRange(|c.st|, first)
    requires HasType(SubW(th, w), lv, mode, SubG(th, g), e, Sub(th, first))
    ensures var r := Agree(w, lv, mode, g, e, first, c); r.Ok? && Reaches(th, r.val, th')
    decreases lv, 0, e, 3
  {
    hide Infer, HasType, Good, Closes, Sub, SubW, SubG, GammaIn, WorldIn, Extends, InRange, Equate, Reaches, Grows;
    th' := InferComplete(th, w, lv, mode, g, e, Sub(th, first), c);
    Joins(th, th', c, Infer(w, lv, mode, g, e, c).val.1, Infer(w, lv, mode, g, e, c).val.0, first, true);
  }

  /** A longer closing of a later state closes the same world and scope. */
  lemma Onward(th: seq<Type>, th': seq<Type>, w: World, g: Gamma, c: State, c': State)
    requires Closed(th, w, g, c) && Grows(c, c') && Reaches(th, c', th')
    ensures Closed(th', w, g, c') && SubW(th', w) == SubW(th, w) && SubG(th', g) == SubG(th, g)
  {
    GrowsOn(w, g, c, c');
    SubLonger(th, th', w, g);
  }

  lemma {:induction false} FunctionalComplete(th: seq<Type>, w: World, lv: nat, mode: Mode, g: Gamma, e: Expr,
          tau: Type, c: State)
    returns (th': seq<Type>)
    requires Closed(th, w, g, c) && (e.Lam? || e.App? || e.If? || e.Fix?)
    requires HasType(SubW(th, w), lv, mode, SubG(th, g), e, tau)
    ensures Finds(th, InferFunctional(w, lv, mode, g, e, c), th', tau)
    decreases lv, 0, e, 1
  {
    hide Infer, InferFunctional, OpHasType, Good, Closes, Sub, SubW, SubG, GammaIn, WorldIn, Extends;
    match e
    case Lam(x, body) => th' := LamComplete(th, w, lv, mode, g, x, body, tau, c);
    case App(f, a) => th' := AppComplete(th, w, lv, mode, g, f, a, tau, c);
    case If(b, p, q) => th' := IfComplete(th, w, lv, mode, g, b, p, q, tau, c);
    case Fix(f) => th' := FixComplete(th, w, lv, mode, g, f, tau, c);
  }

  lemma {:induction false} LamComplete(th: seq<Type>, w: World, lv: nat, mode: Mode, g: Gamma, x: Sym,
          body: Expr, tau: Type, c: State)
    returns (th': seq<Type>)
    requires Closed(th, w, g, c) && tau.Fun? && HasType(SubW(th, w), lv, mode, SubG(th, g) + [Entry(x, tau.a)], body, tau.r)
    ensures Finds(th, InferFunctional(w, lv, mode, g, Lam(x, body), c), th', tau)
    decreases lv, 0, Lam(x, body), 0
  {
    hide Infer, HasType, Acyclic, Solves, PredsHold, WorldIn, Extends;
    FreshCloses(th, c, tau.a);
    var (a, c1) := Fresh(c);
    Onward(th, th + [tau.a], w, g, c, c1);
    SubSnoc(th + [tau.a], g, x, a);
    th' := InferComplete(th + [tau.a], w, lv, mode, g + [Entry(x, a)], body, tau.r, c1);
    Longer(th + [tau.a], th', a);
  }

  lemma {:induction false} IfComplete(th: seq<Type>, w: World, lv: nat, mode: Mode, g: Gamma, b: Expr, p: Expr,
          q: Expr, tau: Type, c: State)
    returns (th': seq<Type>)
    requires Closed(th, w, g, c) && HasType(SubW(th, w), lv, mode, SubG(th, g), b, TBool)
    requires HasType(SubW(th, w), lv, mode, SubG(th, g), p, tau) && HasType(SubW(th, w), lv, mode, SubG(th, g), q, tau)
    ensures Finds(th, InferFunctional(w, lv, mode, g, If(b, p, q), c), th', tau)
    decreases lv, 0, If(b, p, q), 0
  {
    hide Infer, Expect, Agree, HasType, Acyclic, Solves, PredsHold, WorldIn, GammaIn, Extends, SubW, SubG;
    var th1 := ExpectComplete(th, w, lv, mode, g, b, TBool, c);
    var (_, c1) := Expect(w, lv, mode, g, b, TBool, c).val;
    Onward(th, th1, w, g, c, c1);
    var th2 := InferComplete(th1, w, lv, mode, g, p, tau, c1);
    var (tt, c2) := Infer(w, lv, mode, g, p, c1).val;
    Onward(th1, th2, w, g, c1, c2);
    th' := AgreeComplete(th2, w, lv, mode, g, q, tt, c2);
    Longer(th2, th', tt);
  }

  lemma {:induction false} FixComplete(th: seq<Type>, w: World, lv: nat, mode: Mode, g: Gamma, f: Expr,
          tau: Type, c: State)
    returns (th': seq<Type>)
    requires Closed(th, w, g, c) && HasType(SubW(th, w), lv, mode, SubG(th, g), f, Fun(tau, tau)) && (SubW(th, w).tied ==> tau.Fun?)
    ensures Finds(th, InferFunctional(w, lv, mode, g, Fix(f), c), th', tau)
    decreases lv, 0, Fix(f), 0
  {
    hide Infer, HasType, Acyclic, Solves, PredsHold, WorldIn, GammaIn, Extends, Equate, SubG;
    var th1 := InferComplete(th, w, lv, mode, g, f, Fun(tau, tau), c);
    var (tf, c1) := Infer(w, lv, mode, g, f, c).val;
    FreshCloses(th1, c1, tau);
    var (a, c2) := Fresh(c1);
    th' := th1 + [tau];
    Widens(c1, c2, tf);
    Longer(th1, th', tf);
    EquateCloses(th', c2, tf, Fun(a, a));
    if w.tied {
      OnlyFun(tau);
      DeferCloses(th', Equate(c2, tf, Fun(a, a)).val, Pred(a, FUN_ONLY, ClosureH));
    }
  }

  lemma {:induction false} AppComplete(th: seq<Type>, w: World, lv: nat, mode: Mode, g: Gamma, f: Expr,
          a: Expr, tau: Type, c: State)
    returns (th': seq<Type>)
    requires Closed(th, w, g, c)
    requires exists u :: HasType(SubW(th, w), lv, mode, SubG(th, g), f, Fun(u, tau)) && HasType(SubW(th, w), lv, mode, SubG(th, g), a, u)
    ensures Finds(th, InferFunctional(w, lv, mode, g, App(f, a), c), th', tau)
    decreases lv, 0, App(f, a), 0
  {
    hide Infer, HasType, Acyclic, Solves, PredsHold, WorldIn, Extends, Equate, GammaIn, SubW, SubG;
    var u :| HasType(SubW(th, w), lv, mode, SubG(th, g), f, Fun(u, tau)) && HasType(SubW(th, w), lv, mode, SubG(th, g), a, u);
    var th1 := InferComplete(th, w, lv, mode, g, f, Fun(u, tau), c);
    var (tf, c1) := Infer(w, lv, mode, g, f, c).val;
    Onward(th, th1, w, g, c, c1);
    var th2 := InferComplete(th1, w, lv, mode, g, a, u, c1);
    var (ta, c2) := Infer(w, lv, mode, g, a, c1).val;
    FreshCloses(th2, c2, tau);
    var (t, c3) := Fresh(c2);
    th' := th2 + [tau];
    Widens(c1, c2, tf);
    Widens(c2, c3, tf);
    Widens(c2, c3, ta);
    Longer(th1, th', tf);
    Longer(th2, th', ta);
    EquateCloses(th', c3, tf, Fun(ta, t));
  }

  lemma {:induction false} SequentialComplete(th: seq<Type>, w: World, lv: nat, mode: Mode, g: Gamma, e: Expr,
          tau: Type, c: State)
    returns (th': seq<Type>)
    requires Closed(th, w, g, c) && (e.Return? || e.Bind? || e.Resolve?)
    requires HasType(SubW(th, w), lv, mode, SubG(th, g), e, tau)
    ensures Finds(th, InferSequential(w, lv, mode, g, e, c), th', tau)
    decreases lv, 0, e, 1
  {
    hide Infer, InferSequential, OpHasType, Good, Closes, Sub, SubG, GammaIn, WorldIn, Extends, AnswersHave;
    match e
    case Return(_, m) => th' := ReturnComplete(th, w, lv, mode, g, e, tau, c);
    case Bind(_, _, _, _) => th' := BindComplete(th, w, lv, mode, g, e, tau, c);
    case Resolve(x, n) => th' := ResolveComplete(th, w, lv, mode, g, x, n, tau, c);
  }

  lemma {:induction false} ReturnComplete(th: seq<Type>, w: World, lv: nat, mode: Mode, g: Gamma, e: Expr,
          tau: Type, c: State)
    returns (th': seq<Type>)
    requires Closed(th, w, g, c) && e.Return? && HasType(SubW(th, w), lv, mode, SubG(th, g), e.m, SubW(th, w).result)
    ensures Finds(th, InferSequential(w, lv, mode, g, e, c), th', tau)
    decreases lv, 0, e, 0
  {
    hide Infer, Expect, HasType, Acyclic, Solves, PredsHold, Extends, GammaIn;
    var th1 := ExpectComplete(th, w, lv, mode, g, e.m, w.result, c);
    var (_, c1) := Expect(w, lv, mode, g, e.m, w.result, c).val;
    FreshCloses(th1, c1, tau);
    th' := th1 + [tau];
  }

  lemma {:induction false} BindComplete(th: seq<Type>, w: World, lv: nat, mode: Mode, g: Gamma, e: Expr,
          tau: Type, c: State)
    returns (th': seq<Type>)
    requires Closed(th, w, g, c) && e.Bind?
    requires exists u :: HasType(SubW(th, w), lv, mode, SubG(th, g), e.m, u)
                      && HasType(SubW(th, w), lv, mode, SubG(th, g) + [Entry(e.x, u)], e.k, tau)
    ensures Finds(th, InferSequential(w, lv, mode, g, e, c), th', tau)
    decreases lv, 0, e, 0
  {
    hide Infer, InferStmt, HasType, Acyclic, Solves, PredsHold, Extends, WorldIn;
    var u :| HasType(SubW(th, w), lv, mode, SubG(th, g), e.m, u)
          && HasType(SubW(th, w), lv, mode, SubG(th, g) + [Entry(e.x, u)], e.k, tau);
    var th1 := StmtComplete(th, w, lv, mode, g, e.m, u, c);
    var stmt := InferStmt(w, lv, mode, g, e.m, c).val;
    Onward(th, th1, w, g, c, stmt.c);
    SubSnoc(th1, g, e.x, stmt.bound);
    th' := InferComplete(th1, w, lv, mode, g + [Entry(e.x, stmt.bound)], e.k, tau, stmt.c);
  }

  lemma {:induction false} ResolveComplete(th: seq<Type>, w: World, lv: nat, mode: Mode, g: Gamma, x: Sym,
          n: Expr, tau: Type, c: State)
    returns (th': seq<Type>)
    requires Closed(th, w, g, c) && HasType(SubW(th, w), lv, mode, SubG(th, g), n, TGenus)
    requires Mentions(Answers(w.fugues), x) ==>
               lv > 0 && AnswersHave(SubW(th, w), lv - 1, mode, SubG(th, g), Answers(w.fugues), x, tau)
    ensures Finds(th, InferSequential(w, lv, mode, g, Resolve(x, n), c), th', tau)
    decreases lv, 0, Resolve(x, n), 0
  {
    hide Infer, Expect, InferAnswers, HasType, AnswersHave, Acyclic, Solves, PredsHold, Extends, GammaIn, WorldIn;
    var th1 := ExpectComplete(th, w, lv, mode, g, n, TGenus, c);
    var (_, c1) := Expect(w, lv, mode, g, n, TGenus, c).val;
    FreshCloses(th1, c1, tau);
    var (t, c2) := Fresh(c1);
    GrowsTrans(c, c1, c2);
    th' := th1 + [tau];
    Onward(th, th', w, g, c, c2);
    if Mentions(Answers(w.fugues), x) {
      th' := AnswersComplete(th1 + [tau], w, lv - 1, mode, g, Answers(w.fugues), x, t, c2);
      Longer(th1 + [tau], th', t);
    }
  }

  lemma {:induction false} StmtComplete(th: seq<Type>, w: World, lv: nat, mode: Mode, g: Gamma, m: Expr,
          u: Type, c: State)
    returns (th': seq<Type>)
    requires Closed(th, w, g, c) && HasType(SubW(th, w), lv, mode, SubG(th, g), m, u)
    ensures var r := InferStmt(w, lv, mode, g, m, c); r.Ok? && Reaches(th, r.val.c, th') && Sub(th', r.val.bound) == u
    decreases lv, 0, m, 4
  {
    hide Infer, Expect, HasType, Good, Closes, SubG, Extends, GammaIn;
    OpTypedIf(SubW(th, w), lv, mode, SubG(th, g), m, u);
    match m
    case Pone(e) => th' := ExpectComplete(th, w, lv, mode, g, e, w.state, c);
    case Mitte(e) => th' := MitteComplete(th, w, lv, mode, g, e, c);
    case _ => th' := InferComplete(th, w, lv, mode, g, m, u, c);
  }

  lemma OpTypedIf(w: World, lv: nat, mode: Mode, g: Gamma, e: Expr, t: Type)
    requires HasType(w, lv, mode, g, e, t)
    ensures IsOp(e) ==> OpHasType(w, lv, mode, g, e, t)
  {
    if IsOp(e) { OpTyped(w, lv, mode, g, e, t); }
  }

  lemma {:induction false} MitteComplete(th: seq<Type>, w: World, lv: nat, mode: Mode, g: Gamma, m: Expr, c: State)
    returns (th': seq<Type>)
    requires Closed(th, w, g, c) && OpHasType(SubW(th, w), lv, mode, SubG(th, g), Mitte(m), TUnit)
    ensures var r := Infer(w, lv, mode, g, m, c);
            r.Ok? && Reaches(th, Defer(r.val.1, Pred(r.val.0, CMD_OR_PLAN, CmdH)), th')
    decreases lv, 0, m, 3
  {
    hide Infer, HasType, Acyclic, Solves, PredsHold, Extends, GammaIn, WorldIn;
    var u := if HasType(SubW(th, w), lv, mode, SubG(th, g), m, TCmd) then TCmd else TPlan;
    th' := InferComplete(th, w, lv, mode, g, m, u, c);
    var (t, c1) := Infer(w, lv, mode, g, m, c).val;
    DeferCloses(th', c1, Pred(t, CMD_OR_PLAN, CmdH));
  }

  lemma {:induction false} AnswersComplete(th: seq<Type>, w: World, lv: nat, mode: Mode, g: Gamma,
          os: seq<Overload>, x: Sym, want: Type, c: State)
    returns (th': seq<Type>)
    requires Closed(th, w, g, c) && InRange(|c.st|, want)
    requires AnswersHave(SubW(th, w), lv, mode, SubG(th, g), os, x, Sub(th, want))
    ensures var r := InferAnswers(w, lv, mode, g, os, x, want, c); r.Ok? && Reaches(th, r.val, th')
    decreases lv, 1, |os|
  {
    hide Expect, HasType, Acyclic, Solves, PredsHold, Extends, GammaIn, WorldIn, InRange;
    if os == [] {
      th' := th;
    } else if os[0].name != x {
      th' := AnswersComplete(th, w, lv, mode, g, os[1..], x, want, c);
    } else {
      var th1 := ExpectComplete(th, w, lv, mode, g, os[0].body, want, c);
      var (_, c1) := Expect(w, lv, mode, g, os[0].body, want, c).val;
      Onward(th, th1, w, g, c, c1);
      Widens(c, c1, want);
      Longer(th, th1, want);
      th' := AnswersComplete(th1, w, lv, mode, g, os[1..], x, want, c1);
    }
  }

  lemma {:induction false} OpComplete(th: seq<Type>, w: World, lv: nat, mode: Mode, g: Gamma, e: Expr,
          tau: Type, c: State)
    returns (th': seq<Type>)
    requires Closed(th, w, g, c) && IsOp(e) && HasType(SubW(th, w), lv, mode, SubG(th, g), e, tau)
    ensures Finds(th, InferOp(w, lv, mode, g, e, c), th', tau)
    decreases lv, 0, e, 1
  {
    hide Infer, Expect, Agree, HasType, Acyclic, Solves, PredsHold, Extends, Equate;
    OpTyped(SubW(th, w), lv, mode, SubG(th, g), e, tau);
    match e
    case Nihil =>
      FreshCloses(th, c, tau);
      th' := th + [tau];
    case Clama(m) =>
      var th1 := ExpectComplete(th, w, lv, mode, g, m, w.throw, c);
      FreshCloses(th1, Expect(w, lv, mode, g, m, w.throw, c).val.1, tau);
      th' := th1 + [tau];
    case Recipe(m, x, h) => th' := RecipeComplete(th, w, lv, mode, g, m, x, h, tau, c);
    case Lege => th' := th;
    case Pone(m) => th' := ExpectComplete(th, w, lv, mode, g, m, w.state, c);
    case Mitte(m) => th' := MitteComplete(th, w, lv, mode, g, m, c);
    case Perage(m) => th' := PerageComplete(th, w, lv, mode, g, m, tau, c);
  }

  lemma {:induction false} RecipeComplete(th: seq<Type>, w: World, lv: nat, mode: Mode, g: Gamma, m: Expr,
          x: Sym, h: Expr, tau: Type, c: State)
    returns (th': seq<Type>)
    requires Closed(th, w, g, c) && OpHasType(SubW(th, w), lv, mode, SubG(th, g), Recipe(m, x, h), tau)
    ensures Finds(th, InferOp(w, lv, mode, g, Recipe(m, x, h), c), th', tau)
    decreases lv, 0, Recipe(m, x, h), 0
  {
    hide Infer, Agree, HasType, Acyclic, Solves, PredsHold, Extends;
    var th1 := InferComplete(th, w, lv, mode, g, m, tau, c);
    var (t, c1) := Infer(w, lv, mode, g, m, c).val;
    Onward(th, th1, w, g, c, c1);
    SubSnoc(th1, g, x, w.throw);
    th' := AgreeComplete(th1, w, lv, mode, g + [Entry(x, w.throw)], h, t, c1);
    Longer(th1, th', t);
  }

  lemma {:induction false} PerageComplete(th: seq<Type>, w: World, lv: nat, mode: Mode, g: Gamma, m: Expr,
          tau: Type, c: State)
    returns (th': seq<Type>)
    requires Closed(th, w, g, c) && OpHasType(SubW(th, w), lv, mode, SubG(th, g), Perage(m), tau)
    ensures Finds(th, InferOp(w, lv, mode, g, Perage(m), c), th', tau)
    decreases lv, 0, Perage(m), 0
  {
    hide Infer, Expect, HasType, Acyclic, Solves, PredsHold, Extends, Equate;
    var th1 := ExpectComplete(th, w, lv, mode, g, m, TPlan, c);
    var (_, c1) := Expect(w, lv, mode, g, m, TPlan, c).val;
    Widens(c, c1, w.result);
    Longer(th, th1, w.result);
    EquateCloses(th1, c1, TUnit, w.result);
    var c2 := Equate(c1, TUnit, w.result).val;
    FreshCloses(th1, c2, tau);
    th' := th1 + [tau];
  }
}
