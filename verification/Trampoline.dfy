/** The evaluator as the source writes it: a continuation whose fields the trampoline
    overwrites, refined to the step function of `Machine`. `thrown` is the channel of the
    error in flight; it is set by the frame that throws and read by the unwinding. */
module Trampoline {
  import opened Core
  import opened Machine
  import opened Invariant
  import B = Builtins

  datatype Flow = Continue(control: Control) | Error(d: Dissonance) | Halted(o: Outcome)

  class Continuation {
    var control: Control
    var stack: seq<Frame>
    var tower: seq<Layer>
    var depth: nat
    var thrown: nat
    const mode: Mode
    const arg: Value

    constructor (mode: Mode, body: Expr, arg: Value, st: Value)
      ensures Valid() && View() == Initial(mode, body, st)
      ensures this.mode == mode && this.arg == arg
    {
      this.control := Eval(body, Empty);
      this.stack, this.tower, this.depth, this.thrown := [], BuildTower(mode, st), 0, 0;
      this.mode, this.arg := mode, arg;
      new;
      InitialInv(mode, body, st);
    }

    function View(): Config
      reads this
    {
      Config(control, stack, tower, depth)
    }

    ghost predicate Valid()
      reads this
    {
      Inv(mode, View())
    }

    /** The state with a flow in control position, as the step function signals it. */
    ghost function Signalled(flow: Flow): Signal
      reads this
    {
      match flow
      case Continue(ctl) => Go(View().(control := ctl))
      case Error(User(v)) => Throw(v, thrown, View())
      case Error(d) => Halt(Broken(d))
      case Halted(o) => Halt(Cadence(o))
    }

    method FindLayer(kind: LayerKind, op: OpKind) returns (r: Option<nat>, d: Dissonance)
      ensures r == Slot(View(), kind)
      ensures r.None? ==> d == WrongMode(mode, op)
    {
      d := WrongMode(mode, op);
      r := FirstFrom(Kinds(tower), depth, kind);
    }

    method EvalStep(env: Env, e: Expr, s: Scope) returns (flow: Flow)
      requires Valid()
      modifies this`stack, this`depth
      ensures SameSignal(Machine.EvalStep(Ctx(env, mode, arg), old(View()), e, s), Signalled(flow))
    {
      hide FirstFrom, StackOk, Lifts, Machine.OpStep;
      match e
      case Lit(v) => flow := Continue(Ret(v));
      case Var(x) =>
        var found := s.Find(x);
        if found.Some? {
          flow := Continue(Ret(found.value));
        } else if B.ValueOf(x).Some? {
          flow := Continue(Ret(B.ValueOf(x).value));
        } else if FindPedal(env.pedals, x).Some? {
          flow := Continue(Ret(FindPedal(env.pedals, x).value));
        } else {
          flow := Error(UnboundVar(x));
        }
      case Lam(x, body) => flow := Continue(Ret(Closure(x, body, s)));
      case App(f, a) => flow := Push(AppArg(a, s), f, s);
      case If(c, t, f) => flow := Push(IfK(t, f, s), c, s);
      case Fix(f) => flow := Push(FixK(f, s), f, s);
      case Pure(_, m) => flow := Continue(Eval(m, s));
      case Return(_, m) => flow := Push(ReturnK, m, s);
      case Bind(_, m, x, k) => flow := Push(BindK(x, k, s), m, s);
      case Arg => flow := Continue(Ret(arg));
      case Ask(x) =>
        var found := FindPedal(env.pedals, x);
        flow := if found.Some? then Continue(Ret(found.value)) else Error(UnboundVar(x));
      case Resolve(x, g) => flow := Push(ResolveK(x, s), g, s);
      case Lift(m) =>
        if |tower| - depth < 2 {
          flow := Error(WrongMode(mode, OpLift));
        } else {
          stack := stack + [LiftK(depth)];
          depth := depth + 1;
          flow := Continue(Eval(m, s));
        }
      case _ => flow := OpStep(env, e, s);
    }

    /** The ops that bind to a layer of the tower. */
    method OpStep(env: Env, e: Expr, s: Scope) returns (flow: Flow)
      requires IsOp(e)
      modifies this`stack
      ensures SameSignal(Machine.OpStep(Ctx(env, mode, arg), old(View()), e, s), Signalled(flow))
    {
      hide FirstFrom, LookupVar, FindPedal, Kinds, Slot, Inv;
      var i, d;
      match e
      case Nihil =>
        i, d := FindLayer(MaybeK, OpNihil);
        flow := Error(if i.None? then d else Silent);
      case Clama(m) =>
        i, d := FindLayer(ExceptK, OpClama);
        if i.None? { return Error(d); }
        flow := Push(ClamaK(i.value), m, s);
      case Recipe(m, x, h) =>
        i, d := FindLayer(ExceptK, OpRecipe);
        if i.None? { return Error(d); }
        flow := Push(RecipeH(x, h, s, i.value), m, s);
      case Lege =>
        i, d := FindLayer(StateK, OpLege);
        if i.None? { return Error(d); }
        flow := Continue(Ret(tower[i.value].cell));
      case Pone(m) =>
        i, d := FindLayer(StateK, OpPone);
        if i.None? { return Error(d); }
        flow := Push(PoneK(i.value), m, s);
      case Mitte(m) =>
        i, d := FindLayer(WriterK, OpMitte);
        if i.None? { return Error(d); }
        flow := Push(MitteK(i.value), m, s);
      case Perage(m) =>
        i, d := FindLayer(CommitK, OpPerage);
        if i.None? { return Error(d); }
        flow := Push(PerageK, m, s);
    }

    method Push(f: Frame, e: Expr, s: Scope) returns (flow: Flow)
      modifies this`stack
      ensures stack == old(stack) + [f] && flow == Continue(Eval(e, s))
    {
      stack := stack + [f];
      flow := Continue(Eval(e, s));
    }

    /** A value meets the frame just popped. */
    method ValueStep(env: Env, f: Frame, v: Value) returns (flow: Flow)
      requires Inv(mode, View().(stack := stack + [f]))
      modifies this`stack, this`tower, this`depth, this`thrown
      ensures SameSignal(Machine.ValueStep(Ctx(env, mode, arg), old(View()), f, v), Signalled(flow))
    {
      hide FirstFrom, StackOk, Lifts, Finish;
      Pushed(mode.Tower(), stack, f);
      match f
      case AppArg(a, s) => flow := Push(AppCall(v), a, s);
      case AppCall(g) => flow := Apply(env, g, v);
      case IfK(t, e, s) =>
        flow := if v.Bool? then Continue(Eval(if v.b then t else e, s)) else Error(Dissonant(BoolH, v.Ty()));
      case BindK(x, k, s) => flow := Continue(Eval(k, s.Bind(x, v)));
      case ReturnK => flow := Halted(Finish(tower, Some(v), None));
      case ClamaK(ch) =>
        thrown := ch;
        flow := Error(User(v));
      case RecipeH(_, _, _, _) => flow := Continue(Ret(v));
      case PoneK(i) =>
        tower := tower[i := StateL(v)];
        flow := Continue(Ret(Unit));
      case MitteK(i) =>
        if v.CmdV? {
          tower := tower[i := WriterL(tower[i].plan + [v.cmd])];
          flow := Continue(Ret(Unit));
        } else if v.PlanV? {
          tower := tower[i := WriterL(tower[i].plan + v.plan)];
          flow := Continue(Ret(Unit));
        } else {
          flow := Error(Dissonant(CmdH, v.Ty()));
        }
      case PerageK =>
        if !v.PlanV? {
          flow := Error(Unconsecrated);
        } else if v.plan == [] {
          flow := Error(Premature);
        } else {
          flow := Halted(Finish(tower, Some(Unit), Some(v.plan)));
        }
      case ResolveK(x, s) =>
        if !v.Genus? { return Error(Dissonant(GenusH, v.Ty())); }
        var o := ResolveIn(env, x, v.genus);
        flow := if o.Some? then Continue(Eval(o.value, s)) else Error(Unresolved(x, v.genus));
      case FixK(g, s) => flow := Apply(env, v, SelfRef(g, s));
      case LiftK(saved) =>
        depth := saved;
        flow := Continue(Ret(v));
      case BuiltinPost =>
        match B.ApplyPost(env.phys, v) {
          case Ok(w) => flow := Continue(Ret(w));
          case Err(d) => flow := Error(d);
        }
    }

    method Apply(env: Env, fun: Value, a: Value) returns (flow: Flow)
      modifies this`stack
      ensures SameSignal(Machine.Apply(Ctx(env, mode, arg), old(View()), fun, a), Signalled(flow))
      decreases fun
    {
      hide B.Call, B.PrimOf, Lifts, StackOk;
      match fun
      case Closure(x, body, scope) => flow := Continue(Eval(body, scope.Bind(x, a)));
      case Builtin(name, args) =>
        var all := args + [a];
        if |all| < B.Want(name) { return Continue(Ret(Builtin(name, all))); }
        var p := B.PrimOf(name);
        if p.None? { return Error(UnboundVar(name)); }
        var called := B.Call(env.phys, p.value, all);
        match called {
          case Done(v) => flow := Continue(Ret(v));
          case Fail(d) => flow := Error(d);
          case ApplyThen(g, b) =>
            assert g == args[0];
            stack := stack + [BuiltinPost];
            flow := Apply(env, g, b);
        }
      case _ => flow := Error(Dissonant(ClosureH, fun.Ty()));
    }

    /** Pop frames until a handler of the channel in flight. */
    method UnwindUser(v: Value) returns (caught: Option<Control>)
      modifies this`stack, this`depth
      ensures match Unwind(old(stack), old(depth), thrown)
              case Uncaught => caught.None?
              case Caught(x, h, s, st, d) => caught == Some(Eval(h, s.Bind(x, v))) && stack == st && depth == d
    {
      while stack != []
        invariant Unwind(stack, depth, thrown) == Unwind(old(stack), old(depth), thrown)
        decreases |stack|
      {
        var f := stack[|stack| - 1];
        stack := stack[..|stack| - 1];
        if f.RecipeH? && f.ch == thrown {
          return Some(Eval(f.h, f.s.Bind(f.x, v)));
        }
        if f.LiftK? {
          depth := f.saved;
        }
      }
      caught := None;
    }

    /** One turn of the trampoline, after the budget check. */
    method Turn(env: Env) returns (end: Option<Ending>)
      requires Valid()
      modifies this`control, this`stack, this`tower, this`depth, this`thrown
      ensures match Step(Ctx(env, mode, arg), old(View()))
              case Next(c) => end.None? && View() == c && Valid()
              case End(e) => end == Some(e)
    {
      hide Machine.EvalStep, Machine.ValueStep, StackOk, Lifts, Unwind, Finish, Inv;
      StepKeepsInv(Ctx(env, mode, arg), View());
      var flow;
      match control {
        case Eval(e, s) => flow := EvalStep(env, e, s);
        case Ret(v) =>
          if stack == [] { return Some(Cadence(Finish(tower, Some(v), None))); }
          var f := stack[|stack| - 1];
          stack := stack[..|stack| - 1];
          assert stack + [f] == old(stack);
          assert View().(stack := stack + [f]) == old(View());
          flow := ValueStep(env, f, v);
      }
      match flow {
        case Continue(ctl) => control := ctl;
        case Halted(o) => return Some(Cadence(o));
        case Error(d) =>
          if !d.User? { return Some(Broken(d)); }
          var caught := UnwindUser(d.v);
          if caught.None? { return Some(Broken(d)); }
          control := caught.value;
      }
      end := None;
    }

    /** Spend a step budget: the ending, or nothing when the budget ran out first. */
    method Run(env: Env, fuel: nat) returns (end: Option<Ending>)
      requires Valid()
      modifies this`control, this`stack, this`tower, this`depth, this`thrown
      ensures match Resume(Ctx(env, mode, arg), old(View()), fuel)
              case Ended(e) => end == Some(e) && !e.Panic?
              case OutOfFuel(c) => end.None? && View() == c && Valid()
    {
      hide Step, Inv;
      RunsKeepInv(Ctx(env, mode, arg), View(), fuel);
      var left := fuel;
      while left > 0
        invariant Valid()
        invariant Resume(Ctx(env, mode, arg), View(), left) == Resume(Ctx(env, mode, arg), old(View()), fuel)
      {
        left := left - 1;
        end := Turn(env);
        if end.Some? { return; }
      }
      end := None;
    }
  }

  /** Signals that the trampoline settles alike: a control still to be stored is not compared. */
  predicate SameSignal(a: Signal, b: Signal) {
    match (a, b)
    case (Go(c), Go(d)) => c == d
    case (Throw(v, ch, c), Throw(w, ci, d)) => v == w && ch == ci && c.(control := Ret(Unit)) == d.(control := Ret(Unit))
    case (Halt(x), Halt(y)) => x == y
    case _ => false
  }

  method RunVerse(env: Env, mode: Mode, body: Expr, arg: Value, st: Value, fuel: nat)
    returns (m: Continuation, end: Option<Ending>)
    ensures m.mode == mode && m.arg == arg && fresh(m)
    ensures match Machine.RunVerse(env, mode, body, arg, st, fuel)
            case Ended(e) => end == Some(e) && !e.Panic?
            case OutOfFuel(c) => end.None? && m.View() == c && m.Valid()
  {
    m := new Continuation(mode, body, arg, st);
    end := m.Run(env, fuel);
  }
}
