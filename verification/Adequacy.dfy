/** Adequacy: the machine, started on any expression over any stack, tower and depth, reaches
    exactly what the transformer semantics says, with exactly the budget left that it says. */
module Adequacy {
  import opened Core
  import opened Machine
  import opened Meaning
  import B = Builtins

  /** Where the machine goes on with a result of an expression that ran over the stack `K`
      with the layers `hi` peeled away. */
  function After(ctx: Ctx, r: Res, K: seq<Frame>, hi: seq<Layer>): Run
    requires !r.Out?
  {
    match r
    case Yield(v, L, left) => Resume(ctx, Config(Ret(v), K, hi + L, |hi|), left)
    case Raise(v, L, left, ch) => Continue(ctx, Rescue(v, |hi| + ch, Config(Ret(v), K, hi + L, |hi|)), left)
    case Halted(v, p, L) => Ended(Cadence(Finish(hi + L, Some(v), p)))
    case Abort(d) => Ended(Broken(d))
  }

  function Continue(ctx: Ctx, out: StepOut, left: nat): Run {
    match out
    case Next(c) => Resume(ctx, c, left)
    case End(e) => Ended(e)
  }

  /** The run from `c` ends as `r` says; when `r` is out of budget so is the run. */
  predicate Agrees(ctx: Ctx, run: Run, r: Res, K: seq<Frame>, hi: seq<Layer>) {
    if r.Out? then run.OutOfFuel? else run == After(ctx, r, K, hi)
  }

  /** A value meets the frame on top. */
  lemma Meet(ctx: Ctx, v: Value, K: seq<Frame>, f: Frame, t: seq<Layer>, d: nat, left: nat)
    requires left > 0
    ensures Resume(ctx, Config(Ret(v), K + [f], t, d), left)
         == Continue(ctx, Settle(ValueStep(ctx, Config(Ret(v), K, t, d), f, v)), left - 1)
  {
    assert (K + [f])[..|K|] == K;
  }

  /** A result that is not a value leaves a plain frame behind. */
  lemma Skip(ctx: Ctx, r: Res, K: seq<Frame>, f: Frame, hi: seq<Layer>)
    requires !r.Yield? && !r.Out?
    requires !f.LiftK? && (f.RecipeH? && r.Raise? ==> f.ch != |hi| + r.ch)
    ensures After(ctx, r, K + [f], hi) == After(ctx, r, K, hi)
  {
    assert (K + [f])[..|K|] == K;
  }

  /** The first step of an expression. */
  lemma Begin(ctx: Ctx, e: Expr, s: Scope, K: seq<Frame>, t: seq<Layer>, d: nat, fuel: nat)
    requires fuel > 0
    ensures Resume(ctx, Config(Eval(e, s), K, t, d), fuel)
         == Continue(ctx, Settle(EvalStep(ctx, Config(Eval(e, s), K, t, d), e, s)), fuel - 1)
  {
  }

  lemma {:induction false} FirstShift(hi: seq<LayerKind>, lo: seq<LayerKind>, from: nat, kind: LayerKind)
    ensures FirstFrom(hi + lo, |hi| + from, kind)
         == match FirstFrom(lo, from, kind) case None => None case Some(i) => Some(|hi| + i)
    decreases |lo| - from
  {
    if from < |lo| && lo[from] != kind {
      FirstShift(hi, lo, from + 1, kind);
    }
  }

  lemma Visible(hi: seq<Layer>, L: seq<Layer>, kind: LayerKind)
    ensures FirstFrom(Kinds(hi + L), |hi|, kind)
         == match FirstFrom(Kinds(L), 0, kind) case None => None case Some(i) => Some(|hi| + i)
  {
    assert Kinds(hi + L) == Kinds(hi) + Kinds(L);
    FirstShift(Kinds(hi), Kinds(L), 0, kind);
  }

  /** Running `sub` under the frame `f` and then meeting `f`: the shape of most cases. */
  lemma Under(ctx: Ctx, run: Run, r: Res, K: seq<Frame>, f: Frame, hi: seq<Layer>)
    requires !f.LiftK? && (f.RecipeH? && r.Raise? ==> f.ch != |hi| + r.ch)
    requires Agrees(ctx, run, r, K + [f], hi)
    ensures !r.Yield? || r.left == 0 ==> Agrees(ctx, run, Stop(r), K, hi)
    ensures r.Yield? && r.left > 0 ==>
      run == Continue(ctx, Settle(ValueStep(ctx, Config(Ret(r.v), K, hi + r.L, |hi|), f, r.v)), r.left - 1)
  {
    if r.Yield? && r.left > 0 {
      Meet(ctx, r.v, K, f, hi + r.L, |hi|, r.left);
    } else if !r.Yield? && !r.Out? {
      Skip(ctx, r, K, f, hi);
    }
  }

  /** The frame the machine pushes while it evaluates the first operand. */
  function FrameOf(e: Expr, s: Scope, d: nat, ks: seq<LayerKind>): Frame
    requires First(e).Some? && Legal(e, ks)
  {
    match e
    case App(_, a) => AppArg(a, s)
    case If(_, t, f) => IfK(t, f, s)
    case Fix(f) => FixK(f, s)
    case Return(_, _) => ReturnK
    case Bind(_, _, x, k) => BindK(x, k, s)
    case Resolve(x, _) => ResolveK(x, s)
    case Clama(_) => ClamaK(d + SlotOf(e, ks).value)
    case Pone(_) => PoneK(d + SlotOf(e, ks).value)
    case Mitte(_) => MitteK(d + SlotOf(e, ks).value)
    case Perage(_) => PerageK
  }

  lemma StepFirst(ctx: Ctx, e: Expr, s: Scope, K: seq<Frame>, hi: seq<Layer>, L: seq<Layer>)
    requires First(e).Some? && Legal(e, Kinds(L))
    ensures var c := Config(Eval(e, s), K, hi + L, |hi|);
            EvalStep(ctx, c, e, s) == Go(c.Push(FrameOf(e, s, |hi|, Kinds(L)), First(e).value, s))
  {
    hide FirstFrom, Kinds;
    if Needs(e).Some? { Visible(hi, L, Needs(e).value); }
  }

  lemma StepIllegal(ctx: Ctx, e: Expr, s: Scope, K: seq<Frame>, hi: seq<Layer>, L: seq<Layer>)
    requires !Legal(e, Kinds(L))
    ensures EvalStep(ctx, Config(Eval(e, s), K, hi + L, |hi|), e, s) == Fault(WrongMode(ctx.mode, OpOf(e)))
  {
    hide FirstFrom, Kinds;
    if Needs(e).Some? { Visible(hi, L, Needs(e).value); }
  }

  lemma {:induction false} DenoteAgrees(ctx: Ctx, e: Expr, s: Scope, K: seq<Frame>, hi: seq<Layer>,
          L: seq<Layer>, fuel: nat)
    ensures Agrees(ctx, Resume(ctx, Config(Eval(e, s), K, hi + L, |hi|), fuel), Denote(ctx, e, s, L, fuel), K, hi)
    decreases fuel, 1
  {
    hide Resume, DenoteForm, DenoteRest, EvalStep, ValueStep, Unwind, Legal;
    var run := Resume(ctx, Config(Eval(e, s), K, hi + L, |hi|), fuel);
    if fuel == 0 {
      Spent(ctx, Config(Eval(e, s), K, hi + L, |hi|));
    } else if !Legal(e, Kinds(L)) {
      Begin(ctx, e, s, K, hi + L, |hi|, fuel);
      StepIllegal(ctx, e, s, K, hi, L);
    } else if First(e).None? {
      FormAgrees(ctx, e, s, K, hi, L, fuel);
    } else {
      var f, r := FrameOf(e, s, |hi|, Kinds(L)), Denote(ctx, First(e).value, s, L, fuel - 1);
      Begin(ctx, e, s, K, hi + L, |hi|, fuel);
      StepFirst(ctx, e, s, K, hi, L);
      DenoteAgrees(ctx, First(e).value, s, K + [f], hi, L, fuel - 1);
      Under(ctx, run, r, K, f, hi);
      if r.Yield? && r.left > 0 {
        RestAgrees(ctx, e, s, r.v, K, hi, r.L, r.left - 1);
      }
    }
  }

  lemma {:induction false} FormAgrees(ctx: Ctx, e: Expr, s: Scope, K: seq<Frame>, hi: seq<Layer>,
          L: seq<Layer>, fuel: nat)
    requires fuel > 0 && First(e).None? && Legal(e, Kinds(L))
    ensures Agrees(ctx, Resume(ctx, Config(Eval(e, s), K, hi + L, |hi|), fuel), DenoteForm(ctx, e, s, L, fuel), K, hi)
    decreases fuel, 0, 1
  {
    hide Resume, Denote, ValueStep, Unwind, FirstFrom, Kinds, LookupVar, FindPedal;
    Begin(ctx, e, s, K, hi + L, |hi|, fuel);
    match e
    case Pure(_, m) => DenoteAgrees(ctx, m, s, K, hi, L, fuel - 1);
    case Recipe(m, x, h) => RecipeAgrees(ctx, m, x, h, s, K, hi, L, fuel);
    case Lift(m) => LiftAgrees(ctx, m, s, K, hi, L, fuel);
    case Nihil => Visible(hi, L, MaybeK);
    case Lege => Visible(hi, L, StateK);
    case _ =>
  }

  lemma {:induction false} LiftAgrees(ctx: Ctx, m: Expr, s: Scope, K: seq<Frame>, hi: seq<Layer>,
          L: seq<Layer>, fuel: nat)
    requires fuel > 0 && |L| >= 2
    ensures Agrees(ctx, Resume(ctx, Config(Eval(Lift(m), s), K, hi + L, |hi|), fuel),
                   Relayer(L[0], Denote(ctx, m, s, L[1..], fuel - 1)), K, hi)
    decreases fuel, 0, 0
  {
    hide Resume, After, Denote, ValueStep, Unwind, Relayer;
    Begin(ctx, Lift(m), s, K, hi + L, |hi|, fuel);
    var f, hi' := LiftK(|hi|), hi + [L[0]];
    assert hi' + L[1..] == hi + L;
    DenoteAgrees(ctx, m, s, K + [f], hi', L[1..], fuel - 1);
    Unlift(ctx, Resume(ctx, Config(Eval(Lift(m), s), K, hi + L, |hi|), fuel), Denote(ctx, m, s, L[1..], fuel - 1), K, hi, L[0]);
  }

  /** Leaving a lifted body. */
  lemma Unlift(ctx: Ctx, run: Run, r: Res, K: seq<Frame>, hi: seq<Layer>, top: Layer)
    requires Agrees(ctx, run, r, K + [LiftK(|hi|)], hi + [top])
    ensures Agrees(ctx, run, Relayer(top, r), K, hi)
  {
    hide Resume;
    if r.Yield? || r.Raise? || r.Halted? {
      assert hi + [top] + r.L == hi + ([top] + r.L);
      assert (K + [LiftK(|hi|)])[..|K|] == K;
      if r.Yield? {
        if r.left > 0 {
          Meet(ctx, r.v, K, LiftK(|hi|), hi + [top] + r.L, |hi| + 1, r.left);
        } else {
          Spent(ctx, Config(Ret(r.v), K + [LiftK(|hi|)], hi + [top] + r.L, |hi| + 1));
        }
      }
    }
  }

  lemma Spent(ctx: Ctx, c: Config)
    ensures Resume(ctx, c, 0).OutOfFuel?
  {
  }

  lemma {:induction false} RecipeAgrees(ctx: Ctx, m: Expr, x: Sym, h: Expr, s: Scope, K: seq<Frame>,
          hi: seq<Layer>, L: seq<Layer>, fuel: nat)
    requires fuel > 0 && Legal(Recipe(m, x, h), Kinds(L))
    ensures Agrees(ctx, Resume(ctx, Config(Eval(Recipe(m, x, h), s), K, hi + L, |hi|), fuel),
                   DenoteForm(ctx, Recipe(m, x, h), s, L, fuel), K, hi)
    decreases fuel, 0, 0
  {
    hide Resume, After, Denote, Unwind, Rescue, FirstFrom, Kinds;
    var e := Recipe(m, x, h);
    var run := Resume(ctx, Config(Eval(e, s), K, hi + L, |hi|), fuel);
    Begin(ctx, e, s, K, hi + L, |hi|, fuel);
    Visible(hi, L, ExceptK);
    var i := SlotOf(e, Kinds(L)).value;
    var f := RecipeH(x, h, s, |hi| + i);
    var r := Denote(ctx, m, s, L, fuel - 1);
    DenoteAgrees(ctx, m, s, K + [f], hi, L, fuel - 1);
    if r.Raise? && r.ch == i {
      Handled(ctx, r, K, x, h, s, hi);
      DenoteAgrees(ctx, h, s.Bind(x, r.v), K, hi, r.L, r.left);
    } else {
      Under(ctx, run, r, K, f, hi);
      if r.Yield? && r.left > 0 {
        AfterYield(ctx, r.v, r.L, r.left - 1, K, hi);
      }
    }
  }

  lemma AfterYield(ctx: Ctx, v: Value, L: seq<Layer>, left: nat, K: seq<Frame>, hi: seq<Layer>)
    ensures After(ctx, Yield(v, L, left), K, hi) == Resume(ctx, Config(Ret(v), K, hi + L, |hi|), left)
  {
    hide Resume;
  }

  /** A throw on the channel of the handler on top. */
  lemma Handled(ctx: Ctx, r: Res, K: seq<Frame>, x: Sym, h: Expr, s: Scope, hi: seq<Layer>)
    requires r.Raise?
    ensures After(ctx, r, K + [RecipeH(x, h, s, |hi| + r.ch)], hi)
         == Resume(ctx, Config(Eval(h, s.Bind(x, r.v)), K, hi + r.L, |hi|), r.left)
  {
    hide Resume;
    assert (K + [RecipeH(x, h, s, |hi| + r.ch)])[..|K|] == K;
  }

  /** The machine after the value of the first operand has met its frame. */
  function Met(ctx: Ctx, f: Frame, v: Value, K: seq<Frame>, t: seq<Layer>, d: nat, left: nat): Run {
    Continue(ctx, Settle(ValueStep(ctx, Config(Ret(v), K, t, d), f, v)), left)
  }

  lemma {:induction false} RestAgrees(ctx: Ctx, e: Expr, s: Scope, v: Value, K: seq<Frame>, hi: seq<Layer>,
          L: seq<Layer>, fuel: nat)
    requires First(e).Some? && Legal(e, Kinds(L))
    ensures Agrees(ctx, Met(ctx, FrameOf(e, s, |hi|, Kinds(L)), v, K, hi + L, |hi|, fuel), DenoteRest(ctx, e, s, v, L, fuel), K, hi)
    decreases fuel, 3
  {
    hide Resume, Denote, DenoteApply, Unwind, Apply, FirstFrom, Kinds, Perform, ResolveIn;
    match e
    case App(_, a) => ArgAgrees(ctx, v, a, s, K, hi, L, fuel);
    case If(_, t, f) => if v.Bool? { DenoteAgrees(ctx, if v.b then t else f, s, K, hi, L, fuel); }
    case Fix(f) => ApplyAgrees(ctx, v, SelfRef(f, s), Ret(v), K, hi, L, fuel);
    case Bind(_, _, x, k) => DenoteAgrees(ctx, k, s.Bind(x, v), K, hi, L, fuel);
    case Resolve(x, _) =>
      if v.Genus? && ResolveIn(ctx.env, x, v.genus).Some? {
        DenoteAgrees(ctx, ResolveIn(ctx.env, x, v.genus).value, s, K, hi, L, fuel);
      }
    case Return(_, _) =>
    case Clama(_) | Pone(_) | Mitte(_) | Perage(_) => PerformAgrees(ctx, e, s, v, K, hi, L, fuel);
  }

  lemma PerformAgrees(ctx: Ctx, e: Expr, s: Scope, v: Value, K: seq<Frame>, hi: seq<Layer>, L: seq<Layer>, fuel: nat)
    requires (e.Clama? || e.Pone? || e.Mitte? || e.Perage?) && Legal(e, Kinds(L))
    ensures Agrees(ctx, Met(ctx, FrameOf(e, s, |hi|, Kinds(L)), v, K, hi + L, |hi|, fuel), Perform(e, v, L, fuel), K, hi)
  {
    hide Resume, Unwind, FirstFrom;
    var i := SlotOf(e, Kinds(L)).value;
    assert (hi + L)[|hi| + i] == L[i];
    if e.Pone? {
      UpdateBelow(hi, L, i, StateL(v));
    } else if e.Mitte? && v.CmdV? {
      UpdateBelow(hi, L, i, WriterL(L[i].plan + [v.cmd]));
    } else if e.Mitte? && v.PlanV? {
      UpdateBelow(hi, L, i, WriterL(L[i].plan + v.plan));
    }
  }

  lemma UpdateBelow(hi: seq<Layer>, L: seq<Layer>, i: nat, l: Layer)
    requires i < |L|
    ensures (hi + L)[|hi| + i := l] == hi + L[i := l]
  {
  }

  /** The second half of an application: the function is known, the argument is not. */
  lemma {:induction false} ArgAgrees(ctx: Ctx, fun: Value, a: Expr, s: Scope, K: seq<Frame>, hi: seq<Layer>,
          L: seq<Layer>, fuel: nat)
    ensures var r := Denote(ctx, a, s, L, fuel);
            Agrees(ctx, Resume(ctx, Config(Eval(a, s), K + [AppCall(fun)], hi + L, |hi|), fuel),
                   if !r.Yield? || r.left == 0 then Stop(r) else DenoteApply(ctx, fun, r.v, r.L, r.left - 1), K, hi)
    decreases fuel, 2
  {
    hide Resume, After, Unwind, Rescue, Step, Apply, DenoteApply, Denote, EvalStep;
    var r := Denote(ctx, a, s, L, fuel);
    DenoteAgrees(ctx, a, s, K + [AppCall(fun)], hi, L, fuel);
    Under(ctx, Resume(ctx, Config(Eval(a, s), K + [AppCall(fun)], hi + L, |hi|), fuel), r, K, AppCall(fun), hi);
    if r.Yield? && r.left > 0 {
      ApplyAgrees(ctx, fun, r.v, Ret(r.v), K, hi, r.L, r.left - 1);
    }
  }

  /** The same for applying a function value; `ctl` is the control the step replaces. */
  lemma {:induction false} ApplyAgrees(ctx: Ctx, fun: Value, arg: Value, ctl: Control, K: seq<Frame>,
          hi: seq<Layer>, L: seq<Layer>, fuel: nat)
    ensures Agrees(ctx, Continue(ctx, Settle(Apply(ctx, Config(ctl, K, hi + L, |hi|), fun, arg)), fuel),
                   DenoteApply(ctx, fun, arg, L, fuel), K, hi)
    decreases fuel, 2, fun
  {
    hide Resume, Unwind, Rescue, Step, Denote, ValueStep, EvalStep, B.Call, B.PrimOf, Post;
    match fun
    case Closure(x, body, env) => DenoteAgrees(ctx, body, env.Bind(x, arg), K, hi, L, fuel);
    case Builtin(name, args) =>
      var all := args + [arg];
      if |all| >= B.Want(name) && B.PrimOf(name).Some? {
        var called := B.Call(ctx.env.phys, B.PrimOf(name).value, all);
        if called.ApplyThen? {
          ApplyAgrees(ctx, args[0], called.arg, ctl, K + [BuiltinPost], hi, L, fuel);
          PostAgrees(ctx, Continue(ctx, Settle(Apply(ctx, Config(ctl, K + [BuiltinPost], hi + L, |hi|), args[0], called.arg)), fuel),
                     DenoteApply(ctx, args[0], called.arg, L, fuel), K, hi);
        }
      }
    case _ =>
  }

  lemma PostAgrees(ctx: Ctx, run: Run, r: Res, K: seq<Frame>, hi: seq<Layer>)
    requires Agrees(ctx, run, r, K + [BuiltinPost], hi)
    ensures Agrees(ctx, run, Post(ctx.env.phys, r), K, hi)
  {
    hide Resume, Step, Unwind;
    Under(ctx, run, r, K, BuiltinPost, hi);
  }

  // --- the whole run of a verse ---

  /** What the driver sees of a result at the bottom of the stack. */
  function Observed(r: Res): Ending
    requires !r.Out?
  {
    match r
    case Yield(v, L, _) => Cadence(Finish(L, Some(v), None))
    case Raise(v, _, _, _) => Broken(User(v))
    case Halted(v, p, L) => Cadence(Finish(L, Some(v), p))
    case Abort(d) => Broken(d)
  }

  /** The meaning of a verse: its body over the freshly built tower. */
  function Meant(env: Env, mode: Mode, body: Expr, arg: Value, st: Value, fuel: nat): Res {
    Denote(Ctx(env, mode, arg), body, Empty, BuildTower(mode, st), fuel)
  }

  /** A verse run ends, and ends so, exactly when its meaning is that; the last value of a
      bind chain that ran dry needs one step more. */
  lemma RunIsMeaning(env: Env, mode: Mode, body: Expr, arg: Value, st: Value, fuel: nat)
    ensures var run, r := RunVerse(env, mode, body, arg, st, fuel), Meant(env, mode, body, arg, st, fuel);
            if r.Out? || (r.Yield? && r.left == 0) then run.OutOfFuel? else run == Ended(Observed(r))
  {
    hide Denote, Resume, BuildTower, After;
    var ctx, L := Ctx(env, mode, arg), BuildTower(mode, st);
    assert [] + L == L;
    DenoteAgrees(ctx, body, Empty, [], [], L, fuel);
    var r := Meant(env, mode, body, arg, st, fuel);
    if !r.Out? { AtTheBottom(ctx, r); }
  }

  /** After a result at the bottom of the stack there is nothing left but to hand it over. */
  lemma AtTheBottom(ctx: Ctx, r: Res)
    requires !r.Out?
    ensures var run := After(ctx, r, [], []); if r.Yield? && r.left == 0 then run.OutOfFuel? else run == Ended(Observed(r))
  {
    hide Finish;
    if r.Yield? {
      assert [] + r.L == r.L;
      LastValue(ctx, r.v, r.L, r.left);
    } else if r.Halted? {
      assert [] + r.L == r.L;
    }
  }

  lemma LastValue(ctx: Ctx, v: Value, t: seq<Layer>, left: nat)
    ensures Resume(ctx, Config(Ret(v), [], t, 0), left)
         == if left == 0 then OutOfFuel(Config(Ret(v), [], t, 0)) else Ended(Cadence(Finish(t, Some(v), None)))
  {
  }
}
