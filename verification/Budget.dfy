/** More budget changes no meaning: it is only handed back. */
module Budget {
  import opened Core
  import opened Machine
  import opened Meaning
  import B = Builtins

  function Bump(r: Res, k: nat): Res {
    match r
    case Yield(v, L, left) => Yield(v, L, left + k)
    case Raise(v, L, left, ch) => Raise(v, L, left + k, ch)
    case _ => r
  }

  lemma {:induction false} More(ctx: Ctx, e: Expr, s: Scope, L: seq<Layer>, fuel: nat, k: nat)
    requires !Denote(ctx, e, s, L, fuel).Out?
    ensures Denote(ctx, e, s, L, fuel + k) == Bump(Denote(ctx, e, s, L, fuel), k)
    decreases fuel, 1
  {
    hide Denote, DenoteForm, DenoteRest, Legal, Kinds, First, OpOf;
    Unfold(ctx, e, s, L, fuel);
    Unfold(ctx, e, s, L, fuel + k);
    if Legal(e, Kinds(L)) {
      if First(e).None? {
        MoreForm(ctx, e, s, L, fuel, k);
      } else {
        More(ctx, First(e).value, s, L, fuel - 1, k);
        var r := Denote(ctx, First(e).value, s, L, fuel - 1);
        if r.Yield? {
          MoreRest(ctx, e, s, r.v, r.L, r.left - 1, k);
        }
      }
    }
  }

  lemma {:induction false} MoreForm(ctx: Ctx, e: Expr, s: Scope, L: seq<Layer>, fuel: nat, k: nat)
    requires fuel > 0 && First(e).None? && Legal(e, Kinds(L)) && !DenoteForm(ctx, e, s, L, fuel).Out?
    ensures DenoteForm(ctx, e, s, L, fuel + k) == Bump(DenoteForm(ctx, e, s, L, fuel), k)
    decreases fuel, 0, 1
  {
    hide Denote, Kinds, SlotOf, LookupVar, FindPedal;
    match e
    case Pure(_, m) => More(ctx, m, s, L, fuel - 1, k);
    case Lift(m) => More(ctx, m, s, L[1..], fuel - 1, k);
    case Recipe(m, x, h) => MoreRecipe(ctx, m, x, h, s, L, fuel, k);
    case _ =>
  }

  lemma {:induction false} MoreRecipe(ctx: Ctx, m: Expr, x: Sym, h: Expr, s: Scope, L: seq<Layer>, fuel: nat, k: nat)
    requires fuel > 0 && Legal(Recipe(m, x, h), Kinds(L)) && !DenoteForm(ctx, Recipe(m, x, h), s, L, fuel).Out?
    ensures DenoteForm(ctx, Recipe(m, x, h), s, L, fuel + k) == Bump(DenoteForm(ctx, Recipe(m, x, h), s, L, fuel), k)
    decreases fuel, 0, 0
  {
    hide Denote, Kinds, SlotOf;
    var r := Denote(ctx, m, s, L, fuel - 1);
    More(ctx, m, s, L, fuel - 1, k);
    if r.Raise? && Some(r.ch) == SlotOf(Recipe(m, x, h), Kinds(L)) {
      More(ctx, h, s.Bind(x, r.v), r.L, r.left, k);
    }
  }

  lemma {:induction false} MoreRest(ctx: Ctx, e: Expr, s: Scope, v: Value, L: seq<Layer>, fuel: nat, k: nat)
    requires First(e).Some? && Legal(e, Kinds(L)) && !DenoteRest(ctx, e, s, v, L, fuel).Out?
    ensures DenoteRest(ctx, e, s, v, L, fuel + k) == Bump(DenoteRest(ctx, e, s, v, L, fuel), k)
    decreases fuel, 3
  {
    hide Denote, DenoteApply, Kinds, SlotOf, ResolveIn;
    match e
    case App(_, a) =>
      More(ctx, a, s, L, fuel, k);
      var r := Denote(ctx, a, s, L, fuel);
      if r.Yield? {
        MoreApply(ctx, v, r.v, r.L, r.left - 1, k);
      }
    case If(_, t, f) => if v.Bool? { More(ctx, if v.b then t else f, s, L, fuel, k); }
    case Fix(f) => MoreApply(ctx, v, SelfRef(f, s), L, fuel, k);
    case Bind(_, _, x, n) => More(ctx, n, s.Bind(x, v), L, fuel, k);
    case Resolve(x, _) =>
      if v.Genus? && ResolveIn(ctx.env, x, v.genus).Some? {
        More(ctx, ResolveIn(ctx.env, x, v.genus).value, s, L, fuel, k);
      }
    case _ =>
  }

  lemma {:induction false} MoreApply(ctx: Ctx, fun: Value, arg: Value, L: seq<Layer>, fuel: nat, k: nat)
    requires !DenoteApply(ctx, fun, arg, L, fuel).Out?
    ensures DenoteApply(ctx, fun, arg, L, fuel + k) == Bump(DenoteApply(ctx, fun, arg, L, fuel), k)
    decreases fuel, 2, fun
  {
    hide Denote, B.Call, B.PrimOf, B.ApplyPost;
    match fun
    case Closure(x, body, env) => More(ctx, body, env.Bind(x, arg), L, fuel, k);
    case Builtin(name, args) =>
      var all := args + [arg];
      if |all| >= B.Want(name) && B.PrimOf(name).Some? {
        var called := B.Call(ctx.env.phys, B.PrimOf(name).value, all);
        if called.ApplyThen? {
          MoreApply(ctx, args[0], called.arg, L, fuel, k);
        }
      }
    case _ =>
  }

  /** Two finished results of the same program under different budgets are the same result. */
  lemma Determined(ctx: Ctx, e: Expr, s: Scope, L: seq<Layer>, f1: nat, f2: nat)
    requires !Denote(ctx, e, s, L, f1).Out? && !Denote(ctx, e, s, L, f2).Out?
    ensures Spare(Denote(ctx, e, s, L, f1)) == Spare(Denote(ctx, e, s, L, f2))
  {
    hide Denote;
    if f1 <= f2 { More(ctx, e, s, L, f1, f2 - f1); } else { More(ctx, e, s, L, f2, f1 - f2); }
  }

  /** A result without the budget left over: what an observer sees. */
  function Spare(r: Res): Res {
    match r
    case Yield(v, L, _) => Yield(v, L, 0)
    case Raise(v, L, _, ch) => Raise(v, L, 0, ch)
    case _ => r
  }
}
