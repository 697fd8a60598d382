/** What the modes allow: the checker's rule and the machine's are one (types.rs, check.rs, machine.rs). */
module Legality {
  import opened Core
  import opened Machine
  import opened Meaning
  import opened Unification
  import opened Inference
  import Organ

  // --- towers and masks ---

  /** A mode is known by its final and whether it is plagal. */
  lemma ModesByFinal(mode: Mode, f: Final, plagal: bool)
    ensures FromFinal(mode.FinalOf(), mode.IsPlagal()) == mode
    ensures FromFinal(f, plagal).FinalOf() == f && FromFinal(f, plagal).IsPlagal() == plagal
  {
  }

  /** The base of a mode is the authentic one on its final. A plagal mode stacks its base's layer on
      it once more, but for the planner's, which has a kind of its own and nothing beneath. */
  lemma TowersByFinal(mode: Mode)
    ensures Base(mode) == FromFinal(mode.FinalOf(), false) && |Base(mode).Tower()| == 1
    ensures mode.IsPlagal() && !mode.Hypomixolydian? ==> mode.Tower() == Base(mode).Tower() + Base(mode).Tower()
    ensures mode.Hypomixolydian? ==> mode.Tower() == [WriterK]
    ensures Base(mode).Tower() == [match mode.FinalOf() case Re => MaybeK case Mi => ExceptK case Fa => StateK case Sol => CommitK]
  {
  }

  /** So the ops of a mode are those of its final's effect, and lift where there are two layers. */
  lemma OpsByFinal(mode: Mode, op: OpKind)
    ensures mode.Allows(op) <==>
              match op
              case OpNihil => mode.FinalOf() == Re
              case OpClama | OpRecipe => mode.FinalOf() == Mi
              case OpLege | OpPone => mode.FinalOf() == Fa
              case OpPerage => mode == Mixolydian
              case OpMitte => mode == Hypomixolydian
              case OpLift => mode.IsPlagal() && mode != Hypomixolydian
  {
  }

  predicate IsEffect(e: Expr) {
    Machine.IsOp(e) || e.Lift?
  }

  lemma {:induction false} SeedKinds(ks: seq<LayerKind>, st: Value)
    ensures Kinds(Seed(ks, st)) == ks
    decreases |ks|
  {
    if ks != [] {
      SeedKinds(ks[1..], if ks[0].StateK? then EMPTY_STATE else st);
      assert ks == [ks[0]] + ks[1..];
    }
  }

  /** The checker allows an op in a mode exactly if a layer of the mode's tower provides it. */
  lemma AllowedIsLegal(mode: Mode, st: Value, e: Expr)
    requires IsEffect(e)
    ensures mode.Allows(OpOf(e)) <==> Legal(e, Kinds(BuildTower(mode, st)))
  {
    SeedKinds(mode.Tower(), st);
    if Needs(e).Some? { FirstThere(mode.Tower(), Needs(e).value); }
  }

  lemma FirstThere(ks: seq<LayerKind>, k: LayerKind)
    ensures FirstFrom(ks, 0, k).Some? <==> k in ks
  {
    hide FirstFrom;
  }

  /** And exactly if the machine, come to it outside any lift, goes on: it ends at once in `WrongMode`
      otherwise, whatever is on the stack. */
  lemma AllowedIsTaken(ctx: Ctx, st: Value, e: Expr, s: Scope, K: seq<Frame>)
    requires IsEffect(e)
    ensures var out := Step(ctx, Config(Eval(e, s), K, BuildTower(ctx.mode, st), 0));
            if ctx.mode.Allows(OpOf(e)) then !(out.End? && out.e.Broken? && out.e.d.WrongMode?)
            else out == End(Broken(WrongMode(ctx.mode, OpOf(e))))
  {
    hide FirstFrom;
    SeedKinds(ctx.mode.Tower(), st);
    if Needs(e).Some? { FirstThere(ctx.mode.Tower(), Needs(e).value); }
  }

  /** A line is sung as the mode's own exactly if it is an effect that neither ends nor catches. */
  lemma ModalIsEffect(e: Expr)
    ensures Organ.Classify(e).Modal? <==> IsEffect(e) && !Organ.Cadences(e) && !e.Recipe?
  {
  }

  // --- a mode clash is honest ---

  /** A clash over an op in a mode is of a mode that does not allow it. */
  predicate Honest<T>(r: Checked<T>) {
    r.Err? && r.clash.ModeClash? ==> !r.clash.mode.Allows(r.clash.op)
  }

  /** Unification knows no modes. */
  lemma EquateHonest(c: State, a: Type, b: Type)
    requires Good(c) && InRange(|c.st|, a) && InRange(|c.st|, b)
    ensures Honest(Equate(c, a, b))
  {
    UnifyHonest(c.st, a, b);
  }

  lemma {:induction false} UnifyHonest(st: Subst, a: Type, b: Type)
    requires Acyclic(st) && InRange(|st|, a) && InRange(|st|, b)
    ensures Unify(st, a, b).Failed? ==> !Unify(st, a, b).clash.ModeClash?
    decreases Unbounds(st), Size(Unification.Apply(st, a))
  {
    hide Unification.Apply, Occurs, Height, Size, Unbounds, Vars;
    var x, y := Walk(st, a), Walk(st, b);
    if !x.TVar? && !y.TVar? && x.Fun? && y.Fun? {
      PartsShrink(st, a);
      UnifyHonest(st, x.a, y.a);
      var u := Unify(st, x.a, y.a);
      if u.Solved? { UnifyHonest(u.st, x.r, y.r); }
    }
  }

  lemma {:induction false} InferHonest(w: World, lv: nat, mode: Mode, g: Gamma, e: Expr, c: State)
    requires Ready(w, g, c)
    ensures Honest(Infer(w, lv, mode, g, e, c))
    decreases lv, 0, e, 2
  {
    hide InferFunctional, InferSequential, InferOp, Ready;
    match e
    case Lit(_) | Arg | Ask(_) | Var(_) =>
    case Pure(_, m) => InferHonest(w, lv, mode, g, m, c);
    case Lift(m) => InferHonest(w, lv, Base(mode), g, m, c);
    case Lam(_, _) | App(_, _) | If(_, _, _) | Fix(_) => FunctionalHonest(w, lv, mode, g, e, c);
    case Return(_, _) | Bind(_, _, _, _) | Resolve(_, _) => SequentialHonest(w, lv, mode, g, e, c);
    case _ => OpHonest(w, lv, mode, g, e, c);
  }

  lemma {:induction false} ExpectHonest(w: World, lv: nat, mode: Mode, g: Gamma, e: Expr, want: Type, c: State)
    requires Ready(w, g, c) && InRange(|c.st|, want)
    ensures Honest(Expect(w, lv, mode, g, e, want, c))
    decreases lv, 0, e, 3
  {
    hide Infer, Equate, Acyclic, WorldIn, Extends;
    InferHonest(w, lv, mode, g, e, c);
    var r := Infer(w, lv, mode, g, e, c);
    if r.Ok? {
      Widens(c, r.val.1, want);
      EquateHonest(r.val.1, r.val.0, want);
    }
  }

  lemma {:induction false} AgreeHonest(w: World, lv: nat, mode: Mode, g: Gamma, e: Expr, first: Type, c: State)
    requires Ready(w, g, c) && InRange(|c.st|, first)
    ensures Honest(Agree(w, lv, mode, g, e, first, c))
    decreases lv, 0, e, 3
  {
    hide Infer, Equate, Acyclic, WorldIn, Extends;
    InferHonest(w, lv, mode, g, e, c);
    var r := Infer(w, lv, mode, g, e, c);
    if r.Ok? {
      Widens(c, r.val.1, first);
      EquateHonest(r.val.1, first, r.val.0);
    }
  }

  lemma {:induction false} FunctionalHonest(w: World, lv: nat, mode: Mode, g: Gamma, e: Expr, c: State)
    requires Ready(w, g, c) && (e.Lam? || e.App? || e.If? || e.Fix?)
    ensures Honest(InferFunctional(w, lv, mode, g, e, c))
    decreases lv, 0, e, 0
  {
    hide Infer, Expect, Agree, Acyclic, WorldIn, Extends, Equate;
    match e
    case Lam(x, b) =>
      var (a, c1) := Fresh(c);
      GrowsOn(w, g, c, c1);
      InferHonest(w, lv, mode, g + [Entry(x, a)], b, c1);
    case App(f, a) => AppHonest(w, lv, mode, g, f, a, c);
    case If(b, p, q) =>
      ExpectHonest(w, lv, mode, g, b, TBool, c);
      if Expect(w, lv, mode, g, b, TBool, c).Ok? {
        var c1 := Expect(w, lv, mode, g, b, TBool, c).val.1;
        GrowsOn(w, g, c, c1);
        InferHonest(w, lv, mode, g, p, c1);
        if Infer(w, lv, mode, g, p, c1).Ok? {
          var (tt, c2) := Infer(w, lv, mode, g, p, c1).val;
          GrowsOn(w, g, c1, c2);
          AgreeHonest(w, lv, mode, g, q, tt, c2);
        }
      }
    case Fix(f) =>
      InferHonest(w, lv, mode, g, f, c);
      if Infer(w, lv, mode, g, f, c).Ok? {
        var (tf, c1) := Infer(w, lv, mode, g, f, c).val;
        var (a, c2) := Fresh(c1);
        Widens(c1, c2, tf);
        EquateHonest(c2, tf, Fun(a, a));
      }
  }

  lemma {:induction false} AppHonest(w: World, lv: nat, mode: Mode, g: Gamma, f: Expr, a: Expr, c: State)
    requires Ready(w, g, c)
    ensures Honest(InferFunctional(w, lv, mode, g, App(f, a), c))
    decreases lv, 0, App(f, a), 0, 0
  {
    hide Infer, Acyclic, WorldIn, Extends, Equate, GammaIn;
    InferHonest(w, lv, mode, g, f, c);
    if Infer(w, lv, mode, g, f, c).Ok? {
      var (tf, c1) := Infer(w, lv, mode, g, f, c).val;
      GrowsOn(w, g, c, c1);
      InferHonest(w, lv, mode, g, a, c1);
      if Infer(w, lv, mode, g, a, c1).Ok? {
        var (ta, c2) := Infer(w, lv, mode, g, a, c1).val;
        var (t, c3) := Fresh(c2);
        Widens(c1, c2, tf);
        Widens(c2, c3, tf);
        Widens(c2, c3, ta);
        EquateHonest(c3, tf, Fun(ta, t));
      }
    }
  }

  lemma {:induction false} SequentialHonest(w: World, lv: nat, mode: Mode, g: Gamma, e: Expr, c: State)
    requires Ready(w, g, c) && (e.Return? || e.Bind? || e.Resolve?)
    ensures Honest(InferSequential(w, lv, mode, g, e, c))
    decreases lv, 0, e, 0
  {
    hide Infer, Expect, InferStmt, InferAnswers, Acyclic, Extends;
    match e
    case Return(_, m) => ExpectHonest(w, lv, mode, g, m, w.result, c);
    case Bind(_, m, x, k) =>
      StmtHonest(w, lv, mode, g, m, c);
      if InferStmt(w, lv, mode, g, m, c).Ok? {
        var stmt := InferStmt(w, lv, mode, g, m, c).val;
        GrowsOn(w, g, c, stmt.c);
        InferHonest(w, lv, mode, g + [Entry(x, stmt.bound)], k, stmt.c);
      }
    case Resolve(x, n) =>
      ExpectHonest(w, lv, mode, g, n, TGenus, c);
      if Expect(w, lv, mode, g, n, TGenus, c).Ok? {
        var c1 := Expect(w, lv, mode, g, n, TGenus, c).val.1;
        var (t, c2) := Fresh(c1);
        GrowsTrans(c, c1, c2);
        GrowsOn(w, g, c, c2);
        if Mentions(Answers(w.fugues), x) && lv > 0 {
          AnswersHonest(w, lv - 1, mode, g, Answers(w.fugues), x, t, c2);
        }
      }
  }

  lemma {:induction false} StmtHonest(w: World, lv: nat, mode: Mode, g: Gamma, m: Expr, c: State)
    requires Ready(w, g, c)
    ensures Honest(InferStmt(w, lv, mode, g, m, c))
    decreases lv, 0, m, 4
  {
    hide Expect, Infer, Good, GammaIn, Grows;
    match m
    case Pone(e) => ExpectHonest(w, lv, mode, g, e, w.state, c);
    case Mitte(e) => InferHonest(w, lv, mode, g, e, c);
    case _ => InferHonest(w, lv, mode, g, m, c);
  }

  lemma {:induction false} AnswersHonest(w: World, lv: nat, mode: Mode, g: Gamma, os: seq<Overload>, x: Sym,
          want: Type, c: State)
    requires Ready(w, g, c) && InRange(|c.st|, want)
    ensures Honest(InferAnswers(w, lv, mode, g, os, x, want, c))
    decreases lv, 1, |os|
  {
    hide Expect, Acyclic, Extends, GammaIn, WorldIn, InRange;
    if os != [] {
      if os[0].name != x {
        AnswersHonest(w, lv, mode, g, os[1..], x, want, c);
      } else {
        ExpectHonest(w, lv, mode, g, os[0].body, want, c);
        if Expect(w, lv, mode, g, os[0].body, want, c).Ok? {
          var c1 := Expect(w, lv, mode, g, os[0].body, want, c).val.1;
          GrowsOn(w, g, c, c1);
          Widens(c, c1, want);
          AnswersHonest(w, lv, mode, g, os[1..], x, want, c1);
        }
      }
    }
  }

  lemma {:induction false} OpHonest(w: World, lv: nat, mode: Mode, g: Gamma, e: Expr, c: State)
    requires Ready(w, g, c) && Inference.IsOp(e)
    ensures Honest(InferOp(w, lv, mode, g, e, c))
    decreases lv, 0, e, 0
  {
    hide Infer, Expect, Agree, Acyclic, Extends, Equate;
    match e
    case Nihil | Lege =>
    case Clama(m) => ExpectHonest(w, lv, mode, g, m, w.throw, c);
    case Recipe(m, x, h) =>
      InferHonest(w, lv, mode, g, m, c);
      if Infer(w, lv, mode, g, m, c).Ok? {
        var (t, c1) := Infer(w, lv, mode, g, m, c).val;
        GrowsOn(w, g, c, c1);
        AgreeHonest(w, lv, mode, g + [Entry(x, w.throw)], h, t, c1);
      }
    case Pone(m) => ExpectHonest(w, lv, mode, g, m, w.state, c);
    case Mitte(m) => InferHonest(w, lv, mode, g, m, c);
    case Perage(m) =>
      ExpectHonest(w, lv, mode, g, m, TPlan, c);
      if Expect(w, lv, mode, g, m, TPlan, c).Ok? {
        var c1 := Expect(w, lv, mode, g, m, TPlan, c).val.1;
        Widens(c, c1, w.result);
        EquateHonest(c1, TUnit, w.result);
      }
  }

  // --- refused exactly where the machine would break ---

  lemma RefusedAtOnce(w: World, lv: nat, mode: Mode, g: Gamma, e: Expr, c: State)
    requires Ready(w, g, c) && IsEffect(e) && !mode.Allows(OpOf(e))
    ensures Infer(w, lv, mode, g, e, c) == Checked.Err(ModeClash(mode, OpOf(e)))
  {
    hide Acyclic, WorldIn, GammaIn, Extends;
  }

  /** The checker refuses an op for its mode exactly if the machine, coming to it there outside any
      lift, ends in `WrongMode`. */
  lemma RefusedExactly(w: World, lv: nat, mode: Mode, g: Gamma, e: Expr, c: State, env: Env, arg: Value, st: Value,
          s: Scope, K: seq<Frame>)
    requires Ready(w, g, c) && IsEffect(e)
    ensures Infer(w, lv, mode, g, e, c) == Checked.Err(ModeClash(mode, OpOf(e)))
       <==> Step(Ctx(env, mode, arg), Config(Eval(e, s), K, BuildTower(mode, st), 0)) == End(Broken(WrongMode(mode, OpOf(e))))
  {
    hide Infer, Step, Ready;
    InferHonest(w, lv, mode, g, e, c);
    AllowedIsTaken(Ctx(env, mode, arg), st, e, s, K);
    if !mode.Allows(OpOf(e)) { RefusedAtOnce(w, lv, mode, g, e, c); }
  }
}
