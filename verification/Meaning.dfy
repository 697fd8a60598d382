/** A recursive transformer semantics of the IR: the reference the machine is measured by.

    An expression denotes a function of the layers visible at its lift depth. `Lift` runs its
    body on the layers below the top one and puts the top one back untouched; a throw names
    its layer relative to the visible ones and `Lift` shifts that name. There is no stack, no
    depth cursor and no unwinding. */
module Meaning {
  import opened Core
  import opened Machine
  import B = Builtins

  /** `left` is what remains of the step budget. */
  datatype Res =
    | Yield(v: Value, L: seq<Layer>, left: nat)
    | Raise(v: Value, L: seq<Layer>, left: nat, ch: nat)
    | Halted(value: Value, committed: Option<Plan>, L: seq<Layer>)
    | Abort(d: Dissonance)
    | Out

  /** Results keep the tower's shape and never gain budget. */
  predicate Fits(ks: seq<LayerKind>, fuel: nat, r: Res) {
    && (r.Yield? || r.Raise? || r.Halted? ==> Kinds(r.L) == ks)
    && (r.Yield? || r.Raise? ==> r.left <= fuel)
  }

  // --- legality: the structure of the visible layers ---

  /** The kind of layer an op acts on. */
  function Needs(e: Expr): Option<LayerKind> {
    match e
    case Nihil => Some(MaybeK)
    case Clama(_) | Recipe(_, _, _) => Some(ExceptK)
    case Lege | Pone(_) => Some(StateK)
    case Mitte(_) => Some(WriterK)
    case Perage(_) => Some(CommitK)
    case _ => None
  }

  function OpOf(e: Expr): OpKind {
    match e
    case Nihil => OpNihil
    case Clama(_) => OpClama
    case Recipe(_, _, _) => OpRecipe
    case Lege => OpLege
    case Pone(_) => OpPone
    case Mitte(_) => OpMitte
    case Perage(_) => OpPerage
    case _ => OpLift
  }

  /** The topmost visible layer of the kind an op acts on. */
  function SlotOf(e: Expr, ks: seq<LayerKind>): Option<nat> {
    match Needs(e)
    case Some(k) => FirstFrom(ks, 0, k)
    case None => None
  }

  predicate Legal(e: Expr, ks: seq<LayerKind>) {
    (Needs(e).Some? ==> SlotOf(e, ks).Some?) && (e.Lift? ==> |ks| >= 2)
  }

  /** The operand that is evaluated before anything else happens. */
  function First(e: Expr): Option<Expr> {
    match e
    case App(f, _) => Some(f)
    case If(c, _, _) => Some(c)
    case Fix(f) => Some(f)
    case Return(_, m) => Some(m)
    case Bind(_, m, _, _) => Some(m)
    case Resolve(_, g) => Some(g)
    case Clama(m) => Some(m)
    case Pone(m) => Some(m)
    case Mitte(m) => Some(m)
    case Perage(m) => Some(m)
    case _ => None
  }

  // --- the semantics ---

  /** Out of budget where a value would have met what follows it. */
  function Stop(r: Res): Res {
    if r.Yield? then Out else r
  }

  function Denote(ctx: Ctx, e: Expr, s: Scope, L: seq<Layer>, fuel: nat): (r: Res)
    ensures Fits(Kinds(L), fuel, r)
    decreases fuel, 1
  {
    if fuel == 0 then Out
    else if !Legal(e, Kinds(L)) then Abort(WrongMode(ctx.mode, OpOf(e)))
    else match First(e)
      case None => DenoteForm(ctx, e, s, L, fuel)
      case Some(m) =>
        var r := Denote(ctx, m, s, L, fuel - 1);
        if !r.Yield? || r.left == 0 then Stop(r)
        else DenoteRest(ctx, e, s, r.v, r.L, r.left - 1)
  }

  /** The forms without such an operand. */
  function DenoteForm(ctx: Ctx, e: Expr, s: Scope, L: seq<Layer>, fuel: nat): (r: Res)
    requires fuel > 0 && First(e).None? && Legal(e, Kinds(L))
    ensures Fits(Kinds(L), fuel, r)
    decreases fuel, 0
  {
    match e
    case Lit(v) => Yield(v, L, fuel - 1)
    case Var(x) =>
      (match LookupVar(ctx.env, s, x)
       case Some(v) => Yield(v, L, fuel - 1)
       case None => Abort(UnboundVar(x)))
    case Lam(x, body) => Yield(Closure(x, body, s), L, fuel - 1)
    case Arg => Yield(ctx.arg, L, fuel - 1)
    case Ask(x) =>
      (match FindPedal(ctx.env.pedals, x)
       case Some(v) => Yield(v, L, fuel - 1)
       case None => Abort(UnboundVar(x)))
    case Pure(_, m) => Denote(ctx, m, s, L, fuel - 1)
    case Nihil => Abort(Silent)
    case Lege => Yield(L[SlotOf(e, Kinds(L)).value].cell, L, fuel - 1)
    case Recipe(m, x, h) =>
      var r := Denote(ctx, m, s, L, fuel - 1);
      if r.Raise? && Some(r.ch) == SlotOf(e, Kinds(L)) then Denote(ctx, h, s.Bind(x, r.v), r.L, r.left)
      else if !r.Yield? || r.left == 0 then Stop(r)
      else Yield(r.v, r.L, r.left - 1)
    case Lift(m) => Relayer(L[0], Denote(ctx, m, s, L[1..], fuel - 1))
  }

  /** The top layer returns as a result leaves a lifted body. */
  function Relayer(top: Layer, r: Res): Res {
    match r
    case Yield(v, L, left) => if left == 0 then Out else Yield(v, [top] + L, left - 1)
    case Raise(v, L, left, ch) => Raise(v, [top] + L, left, ch + 1)
    case Halted(v, p, L) => Halted(v, p, [top] + L)
    case _ => r
  }

  /** What follows the value of the first operand. */
  function DenoteRest(ctx: Ctx, e: Expr, s: Scope, v: Value, L: seq<Layer>, fuel: nat): (r: Res)
    requires First(e).Some? && Legal(e, Kinds(L))
    ensures Fits(Kinds(L), fuel, r)
    decreases fuel, 3
  {
    match e
    case App(_, a) =>
      var r := Denote(ctx, a, s, L, fuel);
      if !r.Yield? || r.left == 0 then Stop(r)
      else DenoteApply(ctx, v, r.v, r.L, r.left - 1)
    case If(_, t, f) =>
      if v.Bool? then Denote(ctx, if v.b then t else f, s, L, fuel) else Abort(Dissonant(BoolH, v.Ty()))
    case Fix(f) => DenoteApply(ctx, v, SelfRef(f, s), L, fuel)
    case Return(_, _) => Halted(v, None, L)
    case Bind(_, _, x, k) => Denote(ctx, k, s.Bind(x, v), L, fuel)
    case Resolve(x, _) =>
      if !v.Genus? then Abort(Dissonant(GenusH, v.Ty()))
      else (match ResolveIn(ctx.env, x, v.genus)
        case Some(o) => Denote(ctx, o, s, L, fuel)
        case None => Abort(Unresolved(x, v.genus)))
    case Clama(_) | Pone(_) | Mitte(_) | Perage(_) => Perform(e, v, L, fuel)
  }

  /** An op acts on its layer. */
  function Perform(e: Expr, v: Value, L: seq<Layer>, fuel: nat): (r: Res)
    requires (e.Clama? || e.Pone? || e.Mitte? || e.Perage?) && Legal(e, Kinds(L))
    ensures Fits(Kinds(L), fuel, r)
  {
    var i := SlotOf(e, Kinds(L)).value;
    match e
    case Clama(_) => Raise(v, L, fuel, i)
    case Pone(_) => Yield(Unit, L[i := StateL(v)], fuel)
    case Mitte(_) =>
      if v.CmdV? then Yield(Unit, L[i := WriterL(L[i].plan + [v.cmd])], fuel)
      else if v.PlanV? then Yield(Unit, L[i := WriterL(L[i].plan + v.plan)], fuel)
      else Abort(Dissonant(CmdH, v.Ty()))
    case Perage(_) =>
      if !v.PlanV? then Abort(Unconsecrated)
      else if v.plan == [] then Abort(Premature)
      else Halted(Unit, Some(v.plan), L)
  }

  function DenoteApply(ctx: Ctx, fun: Value, arg: Value, L: seq<Layer>, fuel: nat): (r: Res)
    ensures Fits(Kinds(L), fuel, r)
    decreases fuel, 2, fun
  {
    match fun
    case Closure(x, body, env) => Denote(ctx, body, env.Bind(x, arg), L, fuel)
    case Builtin(name, args) =>
      var all := args + [arg];
      if |all| < B.Want(name) then Yield(Builtin(name, all), L, fuel)
      else (match B.PrimOf(name)
        case None => Abort(UnboundVar(name))
        case Some(p) =>
          match B.Call(ctx.env.phys, p, all)
          case Done(v) => Yield(v, L, fuel)
          case Fail(d) => Abort(d)
          case ApplyThen(f, a) => Post(ctx.env.phys, DenoteApply(ctx, args[0], a, L, fuel)))
    case _ => Abort(Dissonant(ClosureH, fun.Ty()))
  }

  /** `solve` turns the force its function returned into a Δv. */
  function Post(ph: Physics, r: Res): Res {
    if !r.Yield? || r.left == 0 then Stop(r)
    else match B.ApplyPost(ph, r.v)
      case Ok(w) => Yield(w, r.L, r.left - 1)
      case Err(d) => Abort(d)
  }

  /** One unfolding of the semantics, given the result of the first operand. */
  function Assemble(ctx: Ctx, e: Expr, s: Scope, L: seq<Layer>, fuel: nat, first: Res): Res
    requires Fits(Kinds(L), fuel, first)
  {
    if fuel == 0 then Out
    else if !Legal(e, Kinds(L)) then Abort(WrongMode(ctx.mode, OpOf(e)))
    else if First(e).None? then DenoteForm(ctx, e, s, L, fuel)
    else if !first.Yield? || first.left == 0 then Stop(first)
    else DenoteRest(ctx, e, s, first.v, first.L, first.left - 1)
  }

  /** The result of the first operand, if there is one to run. */
  function FirstRes(ctx: Ctx, e: Expr, s: Scope, L: seq<Layer>, fuel: nat): (r: Res)
    ensures Fits(Kinds(L), fuel, r)
  {
    if fuel == 0 || First(e).None? then Out else Denote(ctx, First(e).value, s, L, fuel - 1)
  }

  lemma Unfold(ctx: Ctx, e: Expr, s: Scope, L: seq<Layer>, fuel: nat)
    ensures Denote(ctx, e, s, L, fuel) == Assemble(ctx, e, s, L, fuel, FirstRes(ctx, e, s, L, fuel))
  {
    hide DenoteForm, DenoteRest, Legal, Kinds;
  }
}
