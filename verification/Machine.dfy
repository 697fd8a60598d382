/** The explicit-stack evaluator as a step function on machine states (machine.rs).
    An arm the source calls unreachable, and an index out of a vector, end in `Panic`. */
module Machine {
  import opened Core
  import B = Builtins

  datatype Control = Eval(e: Expr, s: Scope) | Ret(v: Value)

  datatype Layer = MaybeL | ExceptL | StateL(cell: Value) | WriterL(plan: Plan) | CommitL

  function KindOf(l: Layer): LayerKind {
    match l
    case MaybeL => MaybeK
    case ExceptL => ExceptK
    case StateL(_) => StateK
    case WriterL(_) => WriterK
    case CommitL => CommitK
  }

  function Kinds(t: seq<Layer>): (ks: seq<LayerKind>)
    ensures |ks| == |t| && forall i :: 0 <= i < |t| ==> ks[i] == KindOf(t[i])
  {
    seq(|t|, i requires 0 <= i < |t| => KindOf(t[i]))
  }

  datatype Frame =
    | AppArg(a: Expr, s: Scope)
    | AppCall(f: Value)
    | IfK(t: Expr, e: Expr, s: Scope)
    | BindK(x: Sym, k: Expr, s: Scope)
    | ReturnK
    | ClamaK(ch: nat)
    | RecipeH(x: Sym, h: Expr, s: Scope, ch: nat)
    | PoneK(i: nat)
    | MitteK(i: nat)
    | PerageK
    | ResolveK(x: Sym, s: Scope)
    | FixK(op: Expr, s: Scope)
    | LiftK(saved: nat)
    | BuiltinPost

  /** What stays fixed during a run. */
  datatype Ctx = Ctx(env: Env, mode: Mode, arg: Value)

  datatype Config = Config(control: Control, stack: seq<Frame>, tower: seq<Layer>, depth: nat)
  {
    function Push(f: Frame, e: Expr, s: Scope): Config {
      Config(Eval(e, s), stack + [f], tower, depth)
    }
  }

  datatype Outcome = Outcome(value: Option<Value>, state: Value, plan: Plan, committed: Option<Plan>)

  datatype Ending = Cadence(o: Outcome) | Broken(d: Dissonance) | Panic

  /** What one step asks of the trampoline before any unwinding. */
  datatype Signal = Go(c: Config) | Throw(v: Value, ch: nat, c: Config) | Halt(e: Ending)

  const EMPTY_STATE: Value := Record(map[])

  // --- towers ---

  /** The first layer of a kind at or after an index. */
  function FirstFrom(ks: seq<LayerKind>, from: nat, kind: LayerKind): (r: Option<nat>)
    ensures r.Some? ==> from <= r.value < |ks| && ks[r.value] == kind
    ensures r.Some? ==> forall j :: from <= j < r.value ==> ks[j] != kind
    ensures r.None? ==> forall j :: from <= j < |ks| ==> ks[j] != kind
    decreases |ks| - from
  {
    if from >= |ks| then None
    else if ks[from] == kind then Some(from)
    else FirstFrom(ks, from + 1, kind)
  }

  function Seed(ks: seq<LayerKind>, st: Value): seq<Layer> {
    if ks == [] then []
    else match ks[0]
      case MaybeK => [MaybeL] + Seed(ks[1..], st)
      case ExceptK => [ExceptL] + Seed(ks[1..], st)
      case StateK => [StateL(st)] + Seed(ks[1..], EMPTY_STATE)
      case WriterK => [WriterL([])] + Seed(ks[1..], st)
      case CommitK => [CommitL] + Seed(ks[1..], st)
  }

  /** The mode's tower, its topmost state cell seeded and the deeper ones empty. */
  function BuildTower(mode: Mode, st: Value): seq<Layer> {
    Seed(mode.Tower(), st)
  }

  function TopState(t: seq<Layer>): Value {
    if t == [] then Unit else if t[0].StateL? then t[0].cell else TopState(t[1..])
  }

  function TopPlan(t: seq<Layer>): Plan {
    if t == [] then [] else if t[0].WriterL? then t[0].plan else TopPlan(t[1..])
  }

  /** Drain the tower: the visible state and plan are the topmost ones. */
  function Finish(t: seq<Layer>, value: Option<Value>, committed: Option<Plan>): Outcome {
    Outcome(value, TopState(t), TopPlan(t), committed)
  }

  // --- one step ---

  function LookupVar(env: Env, s: Scope, x: Sym): Option<Value> {
    match s.Lookup(x)
    case Some(v) => Some(v)
    case None =>
      match B.ValueOf(x)
      case Some(v) => Some(v)
      case None => FindPedal(env.pedals, x)
  }

  function Fault(d: Dissonance): Signal {
    Halt(Broken(d))
  }

  /** The layer an op binds to: the topmost one of its kind at or below the lift depth. */
  function Slot(c: Config, kind: LayerKind): (r: Option<nat>)
    ensures r.Some? ==> r.value < |c.tower| && KindOf(c.tower[r.value]) == kind
  {
    FirstFrom(Kinds(c.tower), c.depth, kind)
  }

  predicate IsOp(e: Expr) {
    e.Nihil? || e.Clama? || e.Recipe? || e.Lege? || e.Pone? || e.Mitte? || e.Perage?
  }

  /** The ops that bind to a layer of the tower. */
  function OpStep(ctx: Ctx, c: Config, e: Expr, s: Scope): Signal
    requires IsOp(e)
  {
    match e
    case Nihil =>
      if Slot(c, MaybeK).None? then Fault(WrongMode(ctx.mode, OpNihil)) else Fault(Silent)
    case Clama(m) =>
      (match Slot(c, ExceptK)
       case None => Fault(WrongMode(ctx.mode, OpClama))
       case Some(i) => Go(c.Push(ClamaK(i), m, s)))
    case Recipe(m, x, h) =>
      (match Slot(c, ExceptK)
       case None => Fault(WrongMode(ctx.mode, OpRecipe))
       case Some(i) => Go(c.Push(RecipeH(x, h, s, i), m, s)))
    case Lege =>
      (match Slot(c, StateK)
       case None => Fault(WrongMode(ctx.mode, OpLege))
       case Some(i) => Go(c.(control := Ret(c.tower[i].cell))))
    case Pone(m) =>
      (match Slot(c, StateK)
       case None => Fault(WrongMode(ctx.mode, OpPone))
       case Some(i) => Go(c.Push(PoneK(i), m, s)))
    case Mitte(m) =>
      (match Slot(c, WriterK)
       case None => Fault(WrongMode(ctx.mode, OpMitte))
       case Some(i) => Go(c.Push(MitteK(i), m, s)))
    case Perage(m) =>
      if Slot(c, CommitK).None? then Fault(WrongMode(ctx.mode, OpPerage)) else Go(c.Push(PerageK, m, s))
  }

  function EvalStep(ctx: Ctx, c: Config, e: Expr, s: Scope): Signal {
    match e
    case Lit(v) => Go(c.(control := Ret(v)))
    case Var(x) =>
      (match LookupVar(ctx.env, s, x)
       case Some(v) => Go(c.(control := Ret(v)))
       case None => Fault(UnboundVar(x)))
    case Lam(x, body) => Go(c.(control := Ret(Closure(x, body, s))))
    case App(f, a) => Go(c.Push(AppArg(a, s), f, s))
    case If(b, t, f) => Go(c.Push(IfK(t, f, s), b, s))
    case Fix(f) => Go(c.Push(FixK(f, s), f, s))
    case Pure(_, m) => Go(c.(control := Eval(m, s)))
    case Return(_, m) => Go(c.Push(ReturnK, m, s))
    case Bind(_, m, x, k) => Go(c.Push(BindK(x, k, s), m, s))
    case Arg => Go(c.(control := Ret(ctx.arg)))
    case Ask(x) =>
      (match FindPedal(ctx.env.pedals, x)
       case Some(v) => Go(c.(control := Ret(v)))
       case None => Fault(UnboundVar(x)))
    case Resolve(x, g) => Go(c.Push(ResolveK(x, s), g, s))
    case Lift(m) =>
      if |c.tower| < c.depth then Halt(Panic) // the subtraction underflows
      else if |c.tower| - c.depth < 2 then Fault(WrongMode(ctx.mode, OpLift))
      else Go(Config(Eval(m, s), c.stack + [LiftK(c.depth)], c.tower, c.depth + 1))
    case _ => OpStep(ctx, c, e, s)
  }

  /** The closure through which a fixpoint re-enters itself. */
  function SelfRef(f: Expr, s: Scope): Value {
    Closure("$stretto", App(Fix(f), Var("$stretto")), s)
  }

  function Apply(ctx: Ctx, c: Config, fun: Value, arg: Value): Signal
    decreases fun
  {
    match fun
    case Closure(x, body, env) => Go(c.(control := Eval(body, env.Bind(x, arg))))
    case Builtin(name, args) =>
      var all := args + [arg];
      if |all| < B.Want(name) then Go(c.(control := Ret(Builtin(name, all))))
      else (match B.PrimOf(name)
        case None => Fault(UnboundVar(name))
        case Some(p) =>
          match B.Call(ctx.env.phys, p, all)
          case Done(v) => Go(c.(control := Ret(v)))
          case Fail(d) => Fault(d)
          case ApplyThen(f, a) =>
            assert f == args[0];
            Apply(ctx, c.(stack := c.stack + [BuiltinPost]), f, a))
    case _ => Fault(Dissonant(ClosureH, fun.Ty()))
  }

  /** A value meets the frame just popped; `c` is the machine below that frame. */
  function ValueStep(ctx: Ctx, c: Config, frame: Frame, v: Value): Signal {
    match frame
    case AppArg(a, s) => Go(c.Push(AppCall(v), a, s))
    case AppCall(f) => Apply(ctx, c, f, v)
    case IfK(t, e, s) =>
      if v.Bool? then Go(c.(control := Eval(if v.b then t else e, s)))
      else Fault(Dissonant(BoolH, v.Ty()))
    case BindK(x, k, s) => Go(c.(control := Eval(k, s.Bind(x, v))))
    case ReturnK => Halt(Cadence(Finish(c.tower, Some(v), None)))
    case ClamaK(ch) => Throw(v, ch, c)
    case RecipeH(_, _, _, _) => Go(c.(control := Ret(v)))
    case PoneK(i) =>
      if i >= |c.tower| then Halt(Panic)
      else Go(c.(control := Ret(Unit), tower := c.tower[i := StateL(v)]))
    case MitteK(i) =>
      if i >= |c.tower| || !c.tower[i].WriterL? then Halt(Panic)
      else if v.CmdV? then
        Go(c.(control := Ret(Unit), tower := c.tower[i := WriterL(c.tower[i].plan + [v.cmd])]))
      else if v.PlanV? then
        Go(c.(control := Ret(Unit), tower := c.tower[i := WriterL(c.tower[i].plan + v.plan)]))
      else Fault(Dissonant(CmdH, v.Ty()))
    case PerageK =>
      if !v.PlanV? then Fault(Unconsecrated)
      else if v.plan == [] then Fault(Premature)
      else Halt(Cadence(Finish(c.tower, Some(Unit), Some(v.plan))))
    case ResolveK(x, s) =>
      if !v.Genus? then Fault(Dissonant(GenusH, v.Ty()))
      else (match ResolveIn(ctx.env, x, v.genus)
        case Some(o) => Go(c.(control := Eval(o, s)))
        case None => Fault(Unresolved(x, v.genus)))
    case FixK(f, s) => Apply(ctx, c, v, SelfRef(f, s))
    case LiftK(saved) => Go(c.(control := Ret(v), depth := saved))
    case BuiltinPost =>
      match B.ApplyPost(ctx.env.phys, v)
      case Ok(w) => Go(c.(control := Ret(w)))
      case Err(d) => Fault(d)
  }

  // --- unwinding a throw ---

  datatype Caught = Uncaught | Caught(x: Sym, h: Expr, s: Scope, stack: seq<Frame>, depth: nat)

  /** Pop frames until a handler of the channel, restoring the depth on the way. */
  function Unwind(stack: seq<Frame>, depth: nat, ch: nat): Caught {
    if stack == [] then Uncaught
    else
      var top, below := stack[|stack| - 1], stack[..|stack| - 1];
      if top.RecipeH? && top.ch == ch then Caught(top.x, top.h, top.s, below, depth)
      else Unwind(below, if top.LiftK? then top.saved else depth, ch)
  }

  datatype StepOut = Next(c: Config) | End(e: Ending)

  function Rescue(v: Value, ch: nat, c: Config): StepOut {
    match Unwind(c.stack, c.depth, ch)
    case Uncaught => End(Broken(User(v)))
    case Caught(x, h, s, stack, depth) => Next(Config(Eval(h, s.Bind(x, v)), stack, c.tower, depth))
  }

  function Settle(sig: Signal): StepOut {
    match sig
    case Go(c) => Next(c)
    case Throw(v, ch, c) => Rescue(v, ch, c)
    case Halt(e) => End(e)
  }

  function Step(ctx: Ctx, c: Config): StepOut {
    match c.control
    case Eval(e, s) => Settle(EvalStep(ctx, c, e, s))
    case Ret(v) =>
      if c.stack == [] then End(Cadence(Finish(c.tower, Some(v), None)))
      else Settle(ValueStep(ctx, c.(stack := c.stack[..|c.stack| - 1]), c.stack[|c.stack| - 1], v))
  }

  // --- runs ---

  datatype Run = Ended(e: Ending) | OutOfFuel(c: Config)

  function Resume(ctx: Ctx, c: Config, fuel: nat): Run
    decreases fuel
  {
    if fuel == 0 then OutOfFuel(c)
    else match Step(ctx, c)
      case Next(c') => Resume(ctx, c', fuel - 1)
      case End(e) => Ended(e)
  }

  function Initial(mode: Mode, body: Expr, st: Value): Config {
    Config(Eval(body, Empty), [], BuildTower(mode, st), 0)
  }

  function RunVerse(env: Env, mode: Mode, body: Expr, arg: Value, st: Value, fuel: nat): Run {
    Resume(Ctx(env, mode, arg), Initial(mode, body, st), fuel)
  }
}
