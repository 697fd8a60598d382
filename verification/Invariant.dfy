/** What every reachable machine state keeps: the tower has the mode's layers, the lift
    cursor counts the open lifts, and every frame that names a layer names the one its op
    was bound to. So no unreachable arm is hit and no index leaves the tower. */
module Invariant {
  import opened Core
  import opened Machine
  import B = Builtins

  /** Open lifts on a stack. */
  function Lifts(stack: seq<Frame>): nat {
    if stack == [] then 0
    else Lifts(stack[..|stack| - 1]) + if stack[|stack| - 1].LiftK? then 1 else 0
  }

  /** A frame pushed at lift depth `d` over a tower of kinds `ks`. */
  predicate FrameOk(ks: seq<LayerKind>, f: Frame, d: nat) {
    match f
    case ClamaK(ch) => FirstFrom(ks, d, ExceptK) == Some(ch)
    case RecipeH(_, _, _, ch) => FirstFrom(ks, d, ExceptK) == Some(ch)
    case PoneK(i) => FirstFrom(ks, d, StateK) == Some(i)
    case MitteK(i) => FirstFrom(ks, d, WriterK) == Some(i)
    case PerageK => FirstFrom(ks, d, CommitK).Some?
    case LiftK(saved) => saved == d && d + 1 < |ks|
    case _ => true
  }

  predicate StackOk(ks: seq<LayerKind>, stack: seq<Frame>) {
    stack == [] ||
    var top, below := stack[|stack| - 1], stack[..|stack| - 1];
    FrameOk(ks, top, Lifts(below)) && StackOk(ks, below)
  }

  predicate Inv(mode: Mode, c: Config) {
    && Kinds(c.tower) == mode.Tower()
    && c.depth == Lifts(c.stack) < |c.tower|
    && StackOk(mode.Tower(), c.stack)
  }

  lemma Pushed(ks: seq<LayerKind>, stack: seq<Frame>, f: Frame)
    ensures Lifts(stack + [f]) == Lifts(stack) + if f.LiftK? then 1 else 0
    ensures StackOk(ks, stack + [f]) <==> FrameOk(ks, f, Lifts(stack)) && StackOk(ks, stack)
  {
    assert (stack + [f])[..|stack|] == stack;
  }

  /** Every frame of a legal stack was legal where it was pushed. */
  lemma {:induction false} FramesLegal(ks: seq<LayerKind>, stack: seq<Frame>, j: nat)
    requires StackOk(ks, stack) && j < |stack|
    ensures FrameOk(ks, stack[j], Lifts(stack[..j])) && StackOk(ks, stack[..j])
    ensures Lifts(stack[..j]) <= Lifts(stack)
  {
    if j < |stack| - 1 {
      FramesLegal(ks, stack[..|stack| - 1], j);
      assert stack[..|stack| - 1][..j] == stack[..j];
    }
  }

  /** The lifts open on a stack save 0, 1, 2, ... from the bottom. */
  lemma LiftsSaveTheirDepth(ks: seq<LayerKind>, stack: seq<Frame>, j: nat)
    requires StackOk(ks, stack) && j < |stack| && stack[j].LiftK?
    ensures stack[j].saved == Lifts(stack[..j])
  {
    FramesLegal(ks, stack, j);
  }

  // --- throw and catch ---

  predicate Catches(f: Frame, ch: nat) {
    f.RecipeH? && f.ch == ch
  }

  /** Index of the innermost handler of a channel, or the stack's height. */
  function Innermost(stack: seq<Frame>, ch: nat): (j: nat)
    ensures j <= |stack|
    ensures j < |stack| ==> Catches(stack[j], ch) && forall k :: j < k < |stack| ==> !Catches(stack[k], ch)
    ensures j == |stack| ==> forall k :: 0 <= k < |stack| ==> !Catches(stack[k], ch)
  {
    if stack == [] then 0
    else if Catches(stack[|stack| - 1], ch) then |stack| - 1
    else
      var j := Innermost(stack[..|stack| - 1], ch);
      if j == |stack| - 1 then |stack| else j
  }

  /** A throw is caught by the innermost handler of its own channel and by no other, and the
      handler runs with the stack, scope and lift depth its recipe was entered with. */
  lemma {:induction false} ThrowMeetsItsHandler(ks: seq<LayerKind>, stack: seq<Frame>, ch: nat)
    requires StackOk(ks, stack)
    ensures var j := Innermost(stack, ch);
            Unwind(stack, Lifts(stack), ch) ==
              if j == |stack| then Uncaught
              else Caught(stack[j].x, stack[j].h, stack[j].s, stack[..j], Lifts(stack[..j]))
  {
    if stack != [] {
      var top, below := stack[|stack| - 1], stack[..|stack| - 1];
      if !Catches(top, ch) {
        ThrowMeetsItsHandler(ks, below, ch);
        var j := Innermost(below, ch);
        assert top.LiftK? ==> top.saved == Lifts(below);
        assert j < |below| ==> below[..j] == stack[..j];
      }
    }
  }

  /** A throw on one layer passes every handler of the others, however many there are. */
  lemma ThrowPassesOtherLayers(stack: seq<Frame>, depth: nat, ch: nat)
    requires forall k :: 0 <= k < |stack| && stack[k].RecipeH? ==> stack[k].ch != ch
    ensures Unwind(stack, depth, ch) == Uncaught
  {
  }

  // --- preservation ---

  lemma {:induction false} SeedKinds(ks: seq<LayerKind>, st: Value)
    ensures Kinds(Seed(ks, st)) == ks
  {
    if ks != [] {
      SeedKinds(ks[1..], st);
      SeedKinds(ks[1..], EMPTY_STATE);
      assert [ks[0]] + ks[1..] == ks;
    }
  }

  lemma InitialInv(mode: Mode, body: Expr, st: Value)
    ensures Inv(mode, Initial(mode, body, st))
  {
    SeedKinds(mode.Tower(), st);
  }

  /** What a signal may be when the invariant holds: never a panic. */
  predicate SignalOk(mode: Mode, sig: Signal) {
    match sig
    case Go(c) => Inv(mode, c)
    case Throw(_, _, c) => Inv(mode, c)
    case Halt(e) => !e.Panic?
  }

  lemma PushOk(mode: Mode, c: Config, f: Frame, e: Expr, s: Scope)
    requires Inv(mode, c) && FrameOk(mode.Tower(), f, c.depth)
    ensures var c' := c.Push(f, e, s); Inv(mode, if f.LiftK? then c'.(depth := c.depth + 1) else c')
  {
    hide StackOk, Lifts;
    Pushed(mode.Tower(), c.stack, f);
  }

  lemma EvalStepOk(ctx: Ctx, c: Config, e: Expr, s: Scope)
    requires Inv(ctx.mode, c)
    ensures SignalOk(ctx.mode, EvalStep(ctx, c, e, s))
  {
    hide StackOk, Lifts, LookupVar, FirstFrom;
    var sig := EvalStep(ctx, c, e, s);
    if sig.Go? && sig.c.stack != c.stack {
      var f := sig.c.stack[|c.stack|];
      assert FrameOk(ctx.mode.Tower(), f, c.depth);
      PushOk(ctx.mode, c, f, sig.c.control.e, sig.c.control.s);
    }
  }

  lemma {:induction false} ApplyOk(ctx: Ctx, c: Config, fun: Value, arg: Value)
    requires Inv(ctx.mode, c)
    ensures SignalOk(ctx.mode, Apply(ctx, c, fun, arg))
    decreases fun
  {
    hide StackOk, Lifts;
    if fun.Builtin? && |fun.args| + 1 >= B.Want(fun.name) && B.PrimOf(fun.name).Some? {
      var called := B.Call(ctx.env.phys, B.PrimOf(fun.name).value, fun.args + [arg]);
      if called.ApplyThen? {
        Pushed(ctx.mode.Tower(), c.stack, BuiltinPost);
        assert called.f == fun.args[0];
        ApplyOk(ctx, c.(stack := c.stack + [BuiltinPost]), called.f, called.arg);
      }
    }
  }

  /** Putting a layer of the same kind back keeps the tower's shape. */
  lemma UpdateKinds(t: seq<Layer>, i: nat, l: Layer)
    requires i < |t| && KindOf(t[i]) == KindOf(l)
    ensures Kinds(t[i := l]) == Kinds(t)
  {
  }

  lemma ValueStepOk(ctx: Ctx, c: Config, f: Frame, v: Value)
    requires Inv(ctx.mode, c.(stack := c.stack + [f]))
    ensures SignalOk(ctx.mode, ValueStep(ctx, c, f, v))
  {
    hide StackOk, Lifts, Apply, FirstFrom, Finish;
    Pushed(ctx.mode.Tower(), c.stack, f);
    match f
    case AppArg(a, s) => PushOk(ctx.mode, c, AppCall(v), a, s);
    case AppCall(g) => ApplyOk(ctx, c, g, v);
    case FixK(g, s) => ApplyOk(ctx, c, v, SelfRef(g, s));
    case PoneK(i) => UpdateKinds(c.tower, i, StateL(v));
    case MitteK(i) => MitteOk(ctx, c, i, v);
    case _ =>
  }

  lemma MitteOk(ctx: Ctx, c: Config, i: nat, v: Value)
    requires Inv(ctx.mode, c) && i < |c.tower| && KindOf(c.tower[i]) == WriterK
    ensures SignalOk(ctx.mode, ValueStep(ctx, c, MitteK(i), v))
  {
    hide StackOk, Lifts, Apply, FirstFrom, Finish;
    if v.CmdV? {
      UpdateKinds(c.tower, i, WriterL(c.tower[i].plan + [v.cmd]));
    } else if v.PlanV? {
      UpdateKinds(c.tower, i, WriterL(c.tower[i].plan + v.plan));
    }
  }

  lemma RescueOk(mode: Mode, v: Value, ch: nat, c: Config)
    requires Inv(mode, c)
    ensures match Rescue(v, ch, c) case Next(c') => Inv(mode, c') case End(e) => !e.Panic?
  {
    ThrowMeetsItsHandler(mode.Tower(), c.stack, ch);
    var j := Innermost(c.stack, ch);
    if j < |c.stack| {
      FramesLegal(mode.Tower(), c.stack, j);
    }
  }

  /** One step keeps the invariant and does not panic. */
  lemma StepKeepsInv(ctx: Ctx, c: Config)
    requires Inv(ctx.mode, c)
    ensures match Step(ctx, c) case Next(c') => Inv(ctx.mode, c') case End(e) => !e.Panic?
  {
    hide EvalStep, ValueStep, Rescue, Finish, Inv;
    match c.control
    case Eval(e, s) =>
      EvalStepOk(ctx, c, e, s);
      var sig := EvalStep(ctx, c, e, s);
      if sig.Throw? { RescueOk(ctx.mode, sig.v, sig.ch, sig.c); }
    case Ret(v) =>
      if c.stack != [] {
        PoppedOk(ctx, c, v);
        var sig := ValueStep(ctx, c.(stack := c.stack[..|c.stack| - 1]), c.stack[|c.stack| - 1], v);
        if sig.Throw? { RescueOk(ctx.mode, sig.v, sig.ch, sig.c); }
      }
  }

  lemma PoppedOk(ctx: Ctx, c: Config, v: Value)
    requires Inv(ctx.mode, c) && c.stack != []
    ensures SignalOk(ctx.mode, ValueStep(ctx, c.(stack := c.stack[..|c.stack| - 1]), c.stack[|c.stack| - 1], v))
  {
    hide ValueStep, StackOk, SignalOk;
    var below, f := c.stack[..|c.stack| - 1], c.stack[|c.stack| - 1];
    assert below + [f] == c.stack;
    ValueStepOk(ctx, c.(stack := below), f, v);
  }

  /** Every state of every run keeps the invariant, and no run panics. */
  lemma {:induction false} RunsKeepInv(ctx: Ctx, c: Config, fuel: nat)
    requires Inv(ctx.mode, c)
    ensures match Resume(ctx, c, fuel) case OutOfFuel(c') => Inv(ctx.mode, c') case Ended(e) => !e.Panic?
    decreases fuel
  {
    hide Step, Inv;
    if fuel > 0 {
      StepKeepsInv(ctx, c);
      match Step(ctx, c)
      case Next(c') => RunsKeepInv(ctx, c', fuel - 1);
      case End(_) =>
    }
  }

  lemma VersesNeverPanic(env: Env, mode: Mode, body: Expr, arg: Value, st: Value, fuel: nat)
    ensures match RunVerse(env, mode, body, arg, st, fuel)
            case OutOfFuel(c) => Inv(mode, c)
            case Ended(e) => !e.Panic?
  {
    hide Resume, Inv;
    InitialInv(mode, body, st);
    RunsKeepInv(Ctx(env, mode, arg), Initial(mode, body, st), fuel);
  }
}
