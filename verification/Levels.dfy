/** The bound on how deep overloads may resolve overloads does not matter: a check that is not cut
    off by it comes out the same under every larger bound, and it is never cut off for long unless
    an overload leads back to itself. */
module Levels {
  import opened Core
  import opened Unification
  import opened Inference
  import opened Typing
  import opened Verses
  import opened Syntax
  import opened Cycles
  import opened Closings
  import M = Meaning
  import K = ModeSafety
  import P = Printing

  /** The check was cut off by its bound. */
  predicate Cut<T>(r: Checked<T>) {
    r.Err? && r.clash.Bottomless?
  }

  // --- a check that is not cut off ---

  lemma {:induction false} LevelUp(w: World, lv: nat, lv': nat, mode: Mode, g: Gamma, e: Expr, c: State)
    requires Ready(w, g, c) && lv <= lv' && !Cut(Infer(w, lv, mode, g, e, c))
    ensures Infer(w, lv, mode, g, e, c) == Infer(w, lv', mode, g, e, c)
    decreases lv, 0, e, 2
  {
    hide InferFunctional, InferSequential, InferOp, LookupType, Ready;
    match e
    case Lit(_) | Arg | Ask(_) | Var(_) =>
    case Pure(_, m) => LevelUp(w, lv, lv', mode, g, m, c);
    case Lift(m) => if mode.Allows(OpLift) { LevelUp(w, lv, lv', Base(mode), g, m, c); }
    case Lam(_, _) | App(_, _) | If(_, _, _) | Fix(_) => FunctionalUp(w, lv, lv', mode, g, e, c);
    case Return(_, _) | Bind(_, _, _, _) | Resolve(_, _) => SequentialUp(w, lv, lv', mode, g, e, c);
    case _ => OpUp(w, lv, lv', mode, g, e, c);
  }

  lemma {:induction false} ExpectUp(w: World, lv: nat, lv': nat, mode: Mode, g: Gamma, e: Expr, want: Type, c: State)
    requires Ready(w, g, c) && InRange(|c.st|, want) && lv <= lv' && !Cut(Expect(w, lv, mode, g, e, want, c))
    ensures Expect(w, lv, mode, g, e, want, c) == Expect(w, lv', mode, g, e, want, c)
    decreases lv, 0, e, 3
  {
    hide Infer, Equate, Acyclic, WorldIn, Extends;
    if !Cut(Infer(w, lv, mode, g, e, c)) { LevelUp(w, lv, lv', mode, g, e, c); }
  }

  lemma {:induction false} AgreeUp(w: World, lv: nat, lv': nat, mode: Mode, g: Gamma, e: Expr, first: Type, c: State)
    requires Ready(w, g, c) && InRange(|c.st|, first) && lv <= lv' && !Cut(Agree(w, lv, mode, g, e, first, c))
    ensures Agree(w, lv, mode, g, e, first, c) == Agree(w, lv', mode, g, e, first, c)
    decreases lv, 0, e, 3
  {
    hide Infer, Equate, Acyclic, WorldIn, Extends;
    if !Cut(Infer(w, lv, mode, g, e, c)) { LevelUp(w, lv, lv', mode, g, e, c); }
  }

  lemma {:induction false} FunctionalUp(w: World, lv: nat, lv': nat, mode: Mode, g: Gamma, e: Expr, c: State)
    requires Ready(w, g, c) && (e.Lam? || e.App? || e.If? || e.Fix?) && lv <= lv' && !Cut(InferFunctional(w, lv, mode, g, e, c))
    ensures InferFunctional(w, lv, mode, g, e, c) == InferFunctional(w, lv', mode, g, e, c)
    decreases lv, 0, e, 0
  {
    hide Infer, Expect, Agree, Acyclic, WorldIn, Extends, Equate;
    match e
    case Lam(x, b) =>
      var (a, c1) := Fresh(c);
      GrowsOn(w, g, c, c1);
      LevelUp(w, lv, lv', mode, g + [Entry(x, a)], b, c1);
    case App(f, a) =>
      LevelUp(w, lv, lv', mode, g, f, c);
      if Infer(w, lv, mode, g, f, c).Ok? {
        var c1 := Infer(w, lv, mode, g, f, c).val.1;
        GrowsOn(w, g, c, c1);
        LevelUp(w, lv, lv', mode, g, a, c1);
      }
    case If(b, p, q) =>
      ExpectUp(w, lv, lv', mode, g, b, TBool, c);
      if Expect(w, lv, mode, g, b, TBool, c).Ok? {
        var c1 := Expect(w, lv, mode, g, b, TBool, c).val.1;
        GrowsOn(w, g, c, c1);
        LevelUp(w, lv, lv', mode, g, p, c1);
        if Infer(w, lv, mode, g, p, c1).Ok? {
          var (tt, c2) := Infer(w, lv, mode, g, p, c1).val;
          GrowsOn(w, g, c1, c2);
          AgreeUp(w, lv, lv', mode, g, q, tt, c2);
        }
      }
    case Fix(f) => LevelUp(w, lv, lv', mode, g, f, c);
  }

  lemma {:induction false} SequentialUp(w: World, lv: nat, lv': nat, mode: Mode, g: Gamma, e: Expr, c: State)
    requires Ready(w, g, c) && (e.Return? || e.Bind? || e.Resolve?) && lv <= lv' && !Cut(InferSequential(w, lv, mode, g, e, c))
    ensures InferSequential(w, lv, mode, g, e, c) == InferSequential(w, lv', mode, g, e, c)
    decreases lv, 0, e, 0
  {
    hide Infer, Expect, InferStmt, InferAnswers, Acyclic, Extends;
    match e
    case Return(_, m) => ExpectUp(w, lv, lv', mode, g, m, w.result, c);
    case Bind(_, m, x, k) =>
      StmtUp(w, lv, lv', mode, g, m, c);
      if InferStmt(w, lv, mode, g, m, c).Ok? {
        var stmt := InferStmt(w, lv, mode, g, m, c).val;
        GrowsOn(w, g, c, stmt.c);
        LevelUp(w, lv, lv', mode, g + [Entry(x, stmt.bound)], k, stmt.c);
      }
    case Resolve(x, n) =>
      ExpectUp(w, lv, lv', mode, g, n, TGenus, c);
      if Expect(w, lv, mode, g, n, TGenus, c).Ok? {
        var c1 := Expect(w, lv, mode, g, n, TGenus, c).val.1;
        var (t, c2) := Fresh(c1);
        GrowsTrans(c, c1, c2);
        GrowsOn(w, g, c, c2);
        if Mentions(Answers(w.fugues), x) {
          AnswersUp(w, lv - 1, lv' - 1, mode, g, Answers(w.fugues), x, t, c2);
        }
      }
  }

  lemma {:induction false} StmtUp(w: World, lv: nat, lv': nat, mode: Mode, g: Gamma, m: Expr, c: State)
    requires Ready(w, g, c) && lv <= lv' && !Cut(InferStmt(w, lv, mode, g, m, c))
    ensures InferStmt(w, lv, mode, g, m, c) == InferStmt(w, lv', mode, g, m, c)
    decreases lv, 0, m, 4
  {
    hide Expect, Infer, Good, GammaIn, Grows;
    match m
    case Pone(e) => if mode.Allows(OpPone) { ExpectUp(w, lv, lv', mode, g, e, w.state, c); }
    case Mitte(e) => if mode.Allows(OpMitte) { LevelUp(w, lv, lv', mode, g, e, c); }
    case _ => LevelUp(w, lv, lv', mode, g, m, c);
  }

  lemma {:induction false} AnswersUp(w: World, lv: nat, lv': nat, mode: Mode, g: Gamma, os: seq<Overload>, x: Sym,
          want: Type, c: State)
    requires Ready(w, g, c) && InRange(|c.st|, want) && lv <= lv' && !Cut(InferAnswers(w, lv, mode, g, os, x, want, c))
    ensures InferAnswers(w, lv, mode, g, os, x, want, c) == InferAnswers(w, lv', mode, g, os, x, want, c)
    decreases lv, 1, |os|
  {
    hide Expect, Acyclic, Extends, GammaIn, WorldIn, InRange;
    if os != [] {
      if os[0].name != x {
        AnswersUp(w, lv, lv', mode, g, os[1..], x, want, c);
      } else {
        ExpectUp(w, lv, lv', mode, g, os[0].body, want, c);
        if Expect(w, lv, mode, g, os[0].body, want, c).Ok? {
          var c1 := Expect(w, lv, mode, g, os[0].body, want, c).val.1;
          GrowsOn(w, g, c, c1);
          Widens(c, c1, want);
          AnswersUp(w, lv, lv', mode, g, os[1..], x, want, c1);
        }
      }
    }
  }

  lemma {:induction false} OpUp(w: World, lv: nat, lv': nat, mode: Mode, g: Gamma, e: Expr, c: State)
    requires Ready(w, g, c) && IsOp(e) && lv <= lv' && !Cut(InferOp(w, lv, mode, g, e, c))
    ensures InferOp(w, lv, mode, g, e, c) == InferOp(w, lv', mode, g, e, c)
    decreases lv, 0, e, 0
  {
    hide Infer, Expect, Agree, Acyclic, Extends, Equate;
    if mode.Allows(M.OpOf(e)) {
      match e
      case Nihil | Lege =>
      case Clama(m) => ExpectUp(w, lv, lv', mode, g, m, w.throw, c);
      case Recipe(m, x, h) =>
        LevelUp(w, lv, lv', mode, g, m, c);
        if Infer(w, lv, mode, g, m, c).Ok? {
          var (t, c1) := Infer(w, lv, mode, g, m, c).val;
          GrowsOn(w, g, c, c1);
          AgreeUp(w, lv, lv', mode, g + [Entry(x, w.throw)], h, t, c1);
        }
      case Pone(m) => ExpectUp(w, lv, lv', mode, g, m, w.state, c);
      case Mitte(m) => LevelUp(w, lv, lv', mode, g, m, c);
      case Perage(m) => ExpectUp(w, lv, lv', mode, g, m, TPlan, c);
    }
  }

  // --- when no check is cut off ---

  /** Unification knows no bound. */
  lemma EquateEnds(c: State, a: Type, b: Type)
    requires Good(c) && InRange(|c.st|, a) && InRange(|c.st|, b)
    ensures !Cut(Equate(c, a, b))
  {
    UnifyEnds(c.st, a, b);
  }

  lemma {:induction false} UnifyEnds(st: Subst, a: Type, b: Type)
    requires Acyclic(st) && InRange(|st|, a) && InRange(|st|, b)
    ensures Unify(st, a, b) != Failed(Bottomless)
    decreases Unbounds(st), Size(Apply(st, a))
  {
    hide Apply, Occurs, Height, Size, Unbounds, Vars;
    var x, y := Walk(st, a), Walk(st, b);
    if !x.TVar? && !y.TVar? && x.Fun? && y.Fun? {
      PartsShrink(st, a);
      UnifyEnds(st, x.a, y.a);
      var u := Unify(st, x.a, y.a);
      if u.Solved? { UnifyEnds(u.st, x.r, y.r); }
    }
  }

  predicate AllGrounded(fugues: seq<Fugue>, lv: nat, os: seq<Overload>, x: Sym) {
    forall i :: 0 <= i < |os| && os[i].name == x ==> Grounded(fugues, lv, os[i].body)
  }

  lemma AnswersGrounded(fugues: seq<Fugue>, lv: nat, e: Expr)
    requires e.Resolve? && Grounded(fugues, lv, e)
    ensures Mentions(Answers(fugues), e.x) ==> lv > 0 && AllGrounded(fugues, lv - 1, Answers(fugues), e.x)
  {
    hide Answers, Subs;
    Mentioned(Answers(fugues), e.x);
  }

  lemma OpParts(e: Expr)
    ensures e.Clama? || e.Recipe? || e.Pone? || e.Mitte? || e.Perage? ==> e.m in Subs(e)
    ensures e.Recipe? ==> e.h in Subs(e)
  {
  }

  lemma {:induction false} NeverCut(w: World, lv: nat, mode: Mode, g: Gamma, e: Expr, c: State)
    requires Ready(w, g, c) && Grounded(w.fugues, lv, e)
    ensures !Cut(Infer(w, lv, mode, g, e, c))
    decreases lv, 0, e, 2
  {
    hide InferFunctional, InferSequential, InferOp, Ready, Grounded;
    Grounds(w.fugues, lv, e);
    match e
    case Lit(_) | Arg | Ask(_) | Var(_) =>
    case Pure(_, m) => NeverCut(w, lv, mode, g, m, c);
    case Lift(m) => NeverCut(w, lv, Base(mode), g, m, c);
    case Lam(_, _) | App(_, _) | If(_, _, _) | Fix(_) => FunctionalNeverCut(w, lv, mode, g, e, c);
    case Return(_, _) | Bind(_, _, _, _) | Resolve(_, _) => SequentialNeverCut(w, lv, mode, g, e, c);
    case _ => OpNeverCut(w, lv, mode, g, e, c);
  }

  lemma {:induction false} ExpectNeverCut(w: World, lv: nat, mode: Mode, g: Gamma, e: Expr, want: Type, c: State)
    requires Ready(w, g, c) && InRange(|c.st|, want) && Grounded(w.fugues, lv, e)
    ensures !Cut(Expect(w, lv, mode, g, e, want, c))
    decreases lv, 0, e, 3
  {
    hide Infer, Equate, Acyclic, WorldIn, Extends, Grounded;
    NeverCut(w, lv, mode, g, e, c);
    var r := Infer(w, lv, mode, g, e, c);
    if r.Ok? {
      Widens(c, r.val.1, want);
      EquateEnds(r.val.1, r.val.0, want);
    }
  }

  lemma {:induction false} AgreeNeverCut(w: World, lv: nat, mode: Mode, g: Gamma, e: Expr, first: Type, c: State)
    requires Ready(w, g, c) && InRange(|c.st|, first) && Grounded(w.fugues, lv, e)
    ensures !Cut(Agree(w, lv, mode, g, e, first, c))
    decreases lv, 0, e, 3
  {
    hide Infer, Equate, Acyclic, WorldIn, Extends, Grounded;
    NeverCut(w, lv, mode, g, e, c);
    var r := Infer(w, lv, mode, g, e, c);
    if r.Ok? {
      Widens(c, r.val.1, first);
      EquateEnds(r.val.1, first, r.val.0);
    }
  }

  lemma {:induction false} FunctionalNeverCut(w: World, lv: nat, mode: Mode, g: Gamma, e: Expr, c: State)
    requires Ready(w, g, c) && (e.Lam? || e.App? || e.If? || e.Fix?) && Grounded(w.fugues, lv, e)
    ensures !Cut(InferFunctional(w, lv, mode, g, e, c))
    decreases lv, 0, e, 0
  {
    hide Infer, Expect, Agree, Acyclic, WorldIn, Extends, Equate, Grounded;
    Grounds(w.fugues, lv, e);
    match e
    case Lam(x, b) =>
      var (a, c1) := Fresh(c);
      GrowsOn(w, g, c, c1);
      NeverCut(w, lv, mode, g + [Entry(x, a)], b, c1);
    case App(f, a) => AppNeverCut(w, lv, mode, g, f, a, c);
    case If(b, p, q) =>
      ExpectNeverCut(w, lv, mode, g, b, TBool, c);
      if Expect(w, lv, mode, g, b, TBool, c).Ok? {
        var c1 := Expect(w, lv, mode, g, b, TBool, c).val.1;
        GrowsOn(w, g, c, c1);
        NeverCut(w, lv, mode, g, p, c1);
        if Infer(w, lv, mode, g, p, c1).Ok? {
          var (tt, c2) := Infer(w, lv, mode, g, p, c1).val;
          GrowsOn(w, g, c1, c2);
          AgreeNeverCut(w, lv, mode, g, q, tt, c2);
        }
      }
    case Fix(f) =>
      NeverCut(w, lv, mode, g, f, c);
      if Infer(w, lv, mode, g, f, c).Ok? {
        var (tf, c1) := Infer(w, lv, mode, g, f, c).val;
        var (a, c2) := Fresh(c1);
        Widens(c1, c2, tf);
        EquateEnds(c2, tf, Fun(a, a));
      }
  }

  lemma {:induction false} AppNeverCut(w: World, lv: nat, mode: Mode, g: Gamma, f: Expr, a: Expr, c: State)
    requires Ready(w, g, c) && Grounded(w.fugues, lv, f) && Grounded(w.fugues, lv, a)
    ensures !Cut(InferFunctional(w, lv, mode, g, App(f, a), c))
    decreases lv, 0, App(f, a), 0, 0
  {
    hide Infer, Acyclic, WorldIn, Extends, Equate, Grounded, GammaIn;
    NeverCut(w, lv, mode, g, f, c);
    if Infer(w, lv, mode, g, f, c).Ok? {
      var (tf, c1) := Infer(w, lv, mode, g, f, c).val;
      GrowsOn(w, g, c, c1);
      NeverCut(w, lv, mode, g, a, c1);
      if Infer(w, lv, mode, g, a, c1).Ok? {
        var (ta, c2) := Infer(w, lv, mode, g, a, c1).val;
        var (t, c3) := Fresh(c2);
        Widens(c1, c2, tf);
        Widens(c2, c3, tf);
        Widens(c2, c3, ta);
        EquateEnds(c3, tf, Fun(ta, t));
      }
    }
  }

  lemma {:induction false} SequentialNeverCut(w: World, lv: nat, mode: Mode, g: Gamma, e: Expr, c: State)
    requires Ready(w, g, c) && (e.Return? || e.Bind? || e.Resolve?) && Grounded(w.fugues, lv, e)
    ensures !Cut(InferSequential(w, lv, mode, g, e, c))
    decreases lv, 0, e, 0
  {
    hide Infer, Expect, InferStmt, InferAnswers, Acyclic, Extends, Grounded;
    Grounds(w.fugues, lv, e);
    match e
    case Return(_, m) => ExpectNeverCut(w, lv, mode, g, m, w.result, c);
    case Bind(_, m, x, k) =>
      StmtNeverCut(w, lv, mode, g, m, c);
      if InferStmt(w, lv, mode, g, m, c).Ok? {
        var stmt := InferStmt(w, lv, mode, g, m, c).val;
        GrowsOn(w, g, c, stmt.c);
        NeverCut(w, lv, mode, g + [Entry(x, stmt.bound)], k, stmt.c);
      }
    case Resolve(x, n) =>
      ExpectNeverCut(w, lv, mode, g, n, TGenus, c);
      if Expect(w, lv, mode, g, n, TGenus, c).Ok? {
        var c1 := Expect(w, lv, mode, g, n, TGenus, c).val.1;
        var (t, c2) := Fresh(c1);
        GrowsTrans(c, c1, c2);
        GrowsOn(w, g, c, c2);
        AnswersGrounded(w.fugues, lv, e);
        if Mentions(Answers(w.fugues), x) {
          AnswersNeverCut(w, lv - 1, mode, g, Answers(w.fugues), x, t, c2);
        }
      }
  }

  lemma {:induction false} StmtNeverCut(w: World, lv: nat, mode: Mode, g: Gamma, m: Expr, c: State)
    requires Ready(w, g, c) && Grounded(w.fugues, lv, m)
    ensures !Cut(InferStmt(w, lv, mode, g, m, c))
    decreases lv, 0, m, 4
  {
    hide Expect, Infer, Acyclic, GammaIn, Extends, Grounded, Subs;
    Grounds(w.fugues, lv, m);
    OpParts(m);
    match m
    case Pone(e) => ExpectNeverCut(w, lv, mode, g, e, w.state, c);
    case Mitte(e) => NeverCut(w, lv, mode, g, e, c);
    case _ => NeverCut(w, lv, mode, g, m, c);
  }

  lemma {:induction false} AnswersNeverCut(w: World, lv: nat, mode: Mode, g: Gamma, os: seq<Overload>, x: Sym,
          want: Type, c: State)
    requires Ready(w, g, c) && InRange(|c.st|, want) && AllGrounded(w.fugues, lv, os, x)
    ensures !Cut(InferAnswers(w, lv, mode, g, os, x, want, c))
    decreases lv, 1, |os|
  {
    hide Expect, Acyclic, Extends, GammaIn, WorldIn, InRange, Grounded;
    if os != [] {
      forall i | 0 <= i < |os[1..]| && os[1..][i].name == x ensures Grounded(w.fugues, lv, os[1..][i].body) { assert os[1..][i] == os[i + 1]; }
      if os[0].name != x {
        AnswersNeverCut(w, lv, mode, g, os[1..], x, want, c);
      } else {
        ExpectNeverCut(w, lv, mode, g, os[0].body, want, c);
        if Expect(w, lv, mode, g, os[0].body, want, c).Ok? {
          var c1 := Expect(w, lv, mode, g, os[0].body, want, c).val.1;
          GrowsOn(w, g, c, c1);
          Widens(c, c1, want);
          AnswersNeverCut(w, lv, mode, g, os[1..], x, want, c1);
        }
      }
    }
  }

  lemma {:induction false} OpNeverCut(w: World, lv: nat, mode: Mode, g: Gamma, e: Expr, c: State)
    requires Ready(w, g, c) && IsOp(e) && Grounded(w.fugues, lv, e)
    ensures !Cut(InferOp(w, lv, mode, g, e, c))
    decreases lv, 0, e, 0
  {
    hide Infer, Expect, Agree, Acyclic, Extends, Equate, Grounded, Subs;
    Grounds(w.fugues, lv, e);
    OpParts(e);
    match e
    case Nihil | Lege =>
    case Clama(m) => ExpectNeverCut(w, lv, mode, g, m, w.throw, c);
    case Recipe(m, x, h) =>
      NeverCut(w, lv, mode, g, m, c);
      if Infer(w, lv, mode, g, m, c).Ok? {
        var (t, c1) := Infer(w, lv, mode, g, m, c).val;
        GrowsOn(w, g, c, c1);
        AgreeNeverCut(w, lv, mode, g + [Entry(x, w.throw)], h, t, c1);
      }
    case Pone(m) => ExpectNeverCut(w, lv, mode, g, m, w.state, c);
    case Mitte(m) => NeverCut(w, lv, mode, g, m, c);
    case Perage(m) =>
      ExpectNeverCut(w, lv, mode, g, m, TPlan, c);
      if Expect(w, lv, mode, g, m, TPlan, c).Ok? {
        var c1 := Expect(w, lv, mode, g, m, TPlan, c).val.1;
        Widens(c, c1, w.result);
        EquateEnds(c1, TUnit, w.result);
      }
  }

  // --- what is inferred is grounded ---

  lemma {:induction false} KeptIsGrounded(fugues: seq<Fugue>, lv: nat, k: LayerKind, e: Expr)
    requires K.OpsKept(fugues, lv, k, e)
    ensures Grounded(fugues, lv, e)
    decreases lv, e
  {
    hide Subs, Answers;
    forall i | 0 <= i < |Subs(e)| ensures Grounded(fugues, lv, Subs(e)[i]) { KeptIsGrounded(fugues, lv, k, Subs(e)[i]); }
    if e.Resolve? {
      forall i | 0 <= i < |Answers(fugues)| && Answers(fugues)[i].name == e.x
        ensures lv > 0 && Grounded(fugues, lv - 1, Answers(fugues)[i].body)
      {
        KeptIsGrounded(fugues, lv - 1, k, Answers(fugues)[i].body);
      }
    }
  }

  lemma InferredIsGrounded(w: World, lv: nat, mode: Mode, g: Gamma, e: Expr, c: State)
    requires Ready(w, g, c) && Infer(w, lv, mode, g, e, c).Ok?
    ensures Grounded(w.fugues, lv, e)
  {
    hide Infer, Ready, Grounded, K.OpsKept;
    K.InferKept(w, lv, mode, g, e, c);
    KeptIsGrounded(w.fugues, lv, K.KindIn(mode), e);
  }

  // --- the check without a bound ---

  lemma {:induction false} SpineUp(w: World, lv: nat, lv': nat, mode: Mode, g: Gamma, body: Expr,
          lines: seq<Type>, c: State)
    requires Ready(w, g, c) && (forall i :: 0 <= i < |lines| ==> InRange(|c.st|, lines[i]))
    requires lv <= lv' && !Cut(Spine(w, lv, mode, g, body, lines, c))
    ensures Spine(w, lv, mode, g, body, lines, c) == Spine(w, lv', mode, g, body, lines, c)
    decreases body
  {
    hide Infer, InferStmt, Acyclic, Extends;
    if body.Bind? {
      StmtUp(w, lv, lv', mode, g, body.m, c);
      var stmt := InferStmt(w, lv, mode, g, body.m, c);
      if stmt.Ok? {
        GrowsOn(w, g, c, stmt.val.c);
        LinesOn(lines, c, stmt.val.c);
        SpineUp(w, lv, lv', mode, g + [Entry(body.x, stmt.val.bound)], body.k, lines + [stmt.val.line], stmt.val.c);
      }
    } else {
      LevelUp(w, lv, lv', mode, g, body, c);
    }
  }

  /** A check that is not cut off comes out the same under every larger bound. */
  lemma CheckUp(fugues: seq<Fugue>, lv: nat, lv': nat, v: Versus)
    requires lv <= lv' && !Cut(CheckVersus(fugues, lv, v))
    ensures CheckVersus(fugues, lv, v) == CheckVersus(fugues, lv', v)
  {
    hide Infer, Spine, UnifyRhymes, CheckPreds, Acyclic, Extends;
    StartReady(fugues);
    if v.rhymes == [] {
      LevelUp(OwnWorld(fugues), lv, lv', v.mode, [], v.body, START);
    } else {
      SpineUp(OwnWorld(fugues), lv, lv', v.mode, [], v.body, [], START);
    }
  }

  /** `r` is the outcome of the code's own check, which has no bound: that of any bound that does
      not cut it off. */
  ghost predicate Checks(fugues: seq<Fugue>, v: Versus, r: Checked<State>) {
    exists lv :: CheckVersus(fugues, lv, v) == r && !Cut(r)
  }

  /** It has one outcome at most. */
  lemma ChecksOnce(fugues: seq<Fugue>, v: Versus, r: Checked<State>, r': Checked<State>)
    requires Checks(fugues, v, r) && Checks(fugues, v, r')
    ensures r == r'
  {
    hide CheckVersus;
    var a :| CheckVersus(fugues, a, v) == r && !Cut(r);
    var b :| CheckVersus(fugues, b, v) == r' && !Cut(r');
    if a <= b { CheckUp(fugues, a, b, v); } else { CheckUp(fugues, b, a, v); }
  }

  lemma {:induction false} RhymesEnd(labels: seq<char>, sung: seq<Type>, i: nat, j: nat, c: State)
    requires Good(c) && |sung| == |labels| && forall k :: 0 <= k < |sung| ==> InRange(|c.st|, sung[k])
    requires i < j
    ensures !Cut(UnifyRhymes(labels, sung, i, j, c))
    decreases |labels| - i, |labels| - j
  {
    hide Equate, Acyclic;
    if i < |labels| {
      if j >= |labels| {
        RhymesEnd(labels, sung, i + 1, i + 2, c);
      } else if labels[i] != labels[j] {
        RhymesEnd(labels, sung, i, j + 1, c);
      } else {
        EquateEnds(c, sung[i], sung[j]);
        if Equate(c, sung[i], sung[j]).Ok? { RhymesEnd(labels, sung, i, j + 1, Equate(c, sung[i], sung[j]).val); }
      }
    }
  }

  lemma {:induction false} PredsEnd(c: State, k: nat)
    requires Good(c) && k <= |c.preds|
    ensures !Cut(CheckPreds(c, k))
    decreases |c.preds| - k
  {
    hide Acyclic, Walk, PredPasses;
    if k < |c.preds| { PredsEnd(c, k + 1); }
  }

  /** A verse whose overloads nest at most `n` deep has an outcome: a bound of `n` does not cut its
      check off. */
  lemma GroundedChecks(fugues: seq<Fugue>, n: nat, v: Versus)
    requires Grounded(fugues, n, v.body)
    ensures Checks(fugues, v, CheckVersus(fugues, n, v))
  {
    hide Infer, Spine, UnifyRhymes, CheckPreds, Acyclic, Extends, Grounded;
    var w := OwnWorld(fugues);
    StartReady(fugues);
    NeverCut(w, n, v.mode, [], v.body, START);
    if v.rhymes == [] {
      var r := Infer(w, n, v.mode, [], v.body, START);
      if r.Ok? { PredsEnd(r.val.1, 0); }
    } else {
      SpineIsInference(w, n, v.mode, [], v.body, [], START);
      var sp := Spine(w, n, v.mode, [], v.body, [], START);
      if sp.Ok? {
        Widens(START, sp.val.c, w.result);
        var sung := SungTypes(|v.rhymes|, sp.val.lines, w.result);
        RhymesEnd(v.rhymes, sung, 0, 1, sp.val.c);
        var c := UnifyRhymes(v.rhymes, sung, 0, 1, sp.val.c);
        if c.Ok? { PredsEnd(c.val, 0); }
      }
    }
  }

  /** Inference over the body meets a clash, under a bound large enough to get as far as that. */
  ghost predicate Clashes(fugues: seq<Fugue>, v: Versus) {
    Ready(OwnWorld(fugues), [], START) &&
    exists lv :: var r := Infer(OwnWorld(fugues), lv, v.mode, [], v.body, START); r.Err? && !Cut(r)
  }

  lemma WalkEnds(fugues: seq<Fugue>, lv: nat, v: Versus)
    requires !Cut(CheckVersus(fugues, lv, v)) && !Clashes(fugues, v)
    ensures Grounded(fugues, lv, v.body)
  {
    hide Infer, Spine, UnifyRhymes, CheckPreds, Acyclic, Extends, Grounded;
    var w := OwnWorld(fugues);
    StartReady(fugues);
    SpineIsInference(w, lv, v.mode, [], v.body, [], START);
    var r := Infer(w, lv, v.mode, [], v.body, START);
    assert r.Err? ==> Cut(r);
    if r.Ok? { InferredIsGrounded(w, lv, v.mode, [], v.body, START); }
  }

  lemma ClashEnds(fugues: seq<Fugue>, lv: nat, v: Versus)
    requires Ready(OwnWorld(fugues), [], START)
    requires var r := Infer(OwnWorld(fugues), lv, v.mode, [], v.body, START); r.Err? && !Cut(r)
    ensures Checks(fugues, v, CheckVersus(fugues, lv, v)) && CheckVersus(fugues, lv, v).Err?
  {
    hide Infer, Spine, UnifyRhymes, CheckPreds, Acyclic, Extends;
    SpineIsInference(OwnWorld(fugues), lv, v.mode, [], v.body, [], START);
  }

  /** The check of a verse, sung or plain, ends exactly if no overload the verse reaches leads back
      to itself or inference meets a clash before it comes to one that does. */
  lemma EndsExactly(fugues: seq<Fugue>, v: Versus)
    ensures (exists r :: Checks(fugues, v, r)) <==> !Cyclic(fugues, v.body) || Clashes(fugues, v)
  {
    hide CheckVersus, Clashes, Cyclic, Grounded;
    GroundedExactly(fugues, v.body);
    if r :| Checks(fugues, v, r) {
      var lv :| CheckVersus(fugues, lv, v) == r && !Cut(r);
      if !Clashes(fugues, v) { WalkEnds(fugues, lv, v); }
    }
    if !Cyclic(fugues, v.body) {
      GroundedChecks(fugues, |Answers(fugues)|, v);
    } else if Clashes(fugues, v) {
      ClashIsMet(fugues, v);
    }
  }

  lemma ClashIsMet(fugues: seq<Fugue>, v: Versus)
    requires Clashes(fugues, v)
    ensures exists r :: Checks(fugues, v, r)
  {
    hide CheckVersus, Infer, Ready;
    var lv: nat :| var r := Infer(OwnWorld(fugues), lv, v.mode, [], v.body, START); r.Err? && !Cut(r);
    ClashEnds(fugues, lv, v);
  }

  /** A verse that reaches an overload that leads back to itself is never accepted: its check is
      refused or does not end. One that does not is decided by a bound of as many as there are
      answers. */
  lemma CyclesAreNotAccepted(fugues: seq<Fugue>, v: Versus)
    ensures Cyclic(fugues, v.body) ==> forall r :: Checks(fugues, v, r) ==> r.Err?
    ensures !Cyclic(fugues, v.body) ==> Checks(fugues, v, CheckVersus(fugues, |Answers(fugues)|, v))
    ensures forall lv :: CheckVersus(fugues, lv, v).Ok? ==> !Cyclic(fugues, v.body) && Grounded(fugues, lv, v.body)
  {
    hide CheckVersus, Cyclic, Grounded, Infer, Ready;
    GroundedExactly(fugues, v.body);
    forall lv | CheckVersus(fugues, lv, v).Ok? ensures !Cyclic(fugues, v.body) && Grounded(fugues, lv, v.body) {
      AcceptedShape(fugues, lv, v);
      InferredIsGrounded(OwnWorld(fugues), lv, v.mode, [], v.body, START);
    }
    if !Cyclic(fugues, v.body) { GroundedChecks(fugues, |Answers(fugues)|, v); }
  }

  /** Plain verses are accepted, in a state whose predicates do not ask different things of one
      variable, exactly when they have a typing. */
  lemma AcceptanceIsTypability(fugues: seq<Fugue>, v: Versus)
    requires v.rhymes == []
    ensures (exists c :: Checks(fugues, v, Ok(c)) && Good(c) && Unanimous(c))
       <==> (exists lv, w: World, tau :: w.fugues == fugues && HasType(w, lv, v.mode, [], v.body, tau))
  {
    hide HasType, CheckVersus, Closes, Unanimous;
    if c :| Checks(fugues, v, Ok(c)) && Good(c) && Unanimous(c) {
      var lv :| CheckVersus(fugues, lv, v) == Ok(c);
      AcceptedIsClosable(fugues, lv, v);
      var th :| Closes(th, c);
      AcceptedIsTyped(fugues, lv, v, th);
      var w := SubW(th, OwnWorld(fugues));
      var tau :| HasType(w, lv, v.mode, [], v.body, tau);
      assert w.fugues == fugues;
    }
    if lv, w: World, tau :| w.fugues == fugues && HasType(w, lv, v.mode, [], v.body, tau) {
      var th := TypableIsAccepted(fugues, lv, v, w, tau);
      var c := CheckVersus(fugues, lv, v).val;
      AcceptedIsClosable(fugues, lv, v);
      assert Checks(fugues, v, Ok(c)) by { assert CheckVersus(fugues, lv, v) == Ok(c); }
    }
  }

  // --- a cycle of names ---

  /** `reale a @ g = resolve "a" arg`, and a verse's line that resolves it. */
  const ROUND: Expr := Resolve("a", Arg)
  const ROUND_FUGUE: seq<Fugue> := [Fugue([], [Overload("a", "g", ROUND)], [], [], None)]

  /** An overload a score can hold that resolves itself: it meets no clash, so the check does not
      end. */
  lemma CycleNeverEnds(v: Versus, r: Checked<State>)
    requires v.body == ROUND && v.rhymes == []
    ensures !Checks(ROUND_FUGUE, v, r) && P.Expressible(ROUND)
    ensures Cyclic(ROUND_FUGUE, ROUND) && !Clashes(ROUND_FUGUE, v)
  {
    hide Infer, Acyclic;
    StartReady(ROUND_FUGUE);
    forall lv: nat ensures Cut(CheckVersus(ROUND_FUGUE, lv, v)) && Cut(Infer(OwnWorld(ROUND_FUGUE), lv, v.mode, [], ROUND, START)) {
      RoundIsCut(OwnWorld(ROUND_FUGUE), lv, v.mode, [], START);
    }
    RoundIsCyclic();
  }

  lemma RoundAnswers()
    ensures Answers(ROUND_FUGUE) == [Overload("a", "g", ROUND)] && Mentions(Answers(ROUND_FUGUE), "a")
  {
    var f := ROUND_FUGUE[0];
    assert ROUND_FUGUE[1..] == [] && Answers([]) == [];
    assert Answers(ROUND_FUGUE) == f.answers + f.tonals + Answers(ROUND_FUGUE[1..]);
  }

  lemma RoundIsCyclic()
    ensures Cyclic(ROUND_FUGUE, ROUND)
  {
    hide Answers;
    RoundAnswers();
    assert Chain(ROUND_FUGUE, ROUND, []);
    ChainFrom(ROUND_FUGUE, ROUND, 0, []);
    ChainFrom(ROUND_FUGUE, ROUND, 0, [0] + []);
    assert ([0] + ([0] + []))[0] == ([0] + ([0] + []))[1];
  }

  /** The input's type is a genus, or not known yet. */
  predicate MayBeGenus(w: World, c: State) {
    && w.fugues == ROUND_FUGUE && w.arg == TVar(0) && 0 < |c.st|
    && (c.st[0].None? || c.st[0] == Some(TGenus))
  }

  lemma {:induction false} RoundIsCut(w: World, lv: nat, mode: Mode, g: Gamma, c: State)
    requires Ready(w, g, c) && MayBeGenus(w, c)
    ensures Cut(Infer(w, lv, mode, g, ROUND, c))
    decreases lv
  {
    hide Acyclic, Extends, WorldIn, GammaIn, Answers, Expect, InferAnswers;
    RoundAnswers();
    GenusExpected(w, lv, mode, g, c);
    var c1 := Expect(w, lv, mode, g, Arg, TGenus, c).val.1;
    var (t, c2) := Fresh(c1);
    GrowsTrans(c, c1, c2);
    GrowsOn(w, g, c, c2);
    if lv > 0 {
      RoundIsCut(w, lv - 1, mode, g, c2);
      RoundAnswered(w, lv - 1, mode, g, t, c2);
    }
  }

  lemma GenusExpected(w: World, lv: nat, mode: Mode, g: Gamma, c: State)
    requires Ready(w, g, c) && MayBeGenus(w, c)
    ensures var r := Expect(w, lv, mode, g, Arg, TGenus, c); r.Ok? && MayBeGenus(w, r.val.1)
  {
    hide Acyclic, Extends, WorldIn, GammaIn;
    assert Infer(w, lv, mode, g, Arg, c) == Ok((TVar(0), c));
    if c.st[0].Some? {
      assert Walk(c.st, TGenus) == TGenus == Walk(c.st, c.st[0].value) == Walk(c.st, TVar(0));
      assert Equate(c, TVar(0), TGenus) == Ok(c);
    } else {
      assert Walk(c.st, TGenus) == TGenus && Walk(c.st, TVar(0)) == TVar(0) && !Occurs(c.st, 0, TGenus);
      assert Unify(c.st, TVar(0), TGenus) == Solved(c.st[0 := Some(TGenus)]);
    }
  }

  lemma RoundAnswered(w: World, lv: nat, mode: Mode, g: Gamma, want: Type, c: State)
    requires Ready(w, g, c) && InRange(|c.st|, want) && Cut(Infer(w, lv, mode, g, ROUND, c))
    ensures Cut(InferAnswers(w, lv, mode, g, [Overload("a", "g", ROUND)], "a", want, c))
  {
    hide Infer, Acyclic, Extends, WorldIn, GammaIn, Equate;
    assert Cut(Expect(w, lv, mode, g, ROUND, want, c));
  }
}
