/** Types and unification over a triangular substitution (check.rs). */
module Unification {
  import opened Core

  datatype Type =
    | TVar(i: nat)
    | TNum | TStr | TBool | TUnit | TGenus | TCorpus | TField | TPlan | TCmd
    | Fun(a: Type, r: Type)
  {
    function Hint(): TyHint {
      match this
      case TVar(_) => AnyH
      case TNum => NumH
      case TStr => StrH
      case TBool => BoolH
      case TUnit => UnitH
      case TGenus => GenusH
      case TCorpus => RecordH
      case TField => FieldH
      case TPlan => PlanH
      case TCmd => CmdH
      case Fun(_, _) => ClosureH
    }
  }

  /** Variable `i` is bound to the type in slot `i`, or not yet. */
  type Subst = seq<Option<Type>>

  datatype Clash = Types(want: TyHint, got: TyHint) | Infinite | Unbound(x: Sym) | ModeClash(mode: Mode, op: OpKind) | Bottomless

  predicate InRange(n: nat, t: Type) {
    match t
    case TVar(i) => i < n
    case Fun(a, r) => InRange(n, a) && InRange(n, r)
    case _ => true
  }

  function Vars(t: Type): set<nat> {
    match t
    case TVar(i) => {i}
    case Fun(a, r) => Vars(a) + Vars(r)
    case _ => {}
  }

  function Size(t: Type): nat {
    if t.Fun? then 1 + Size(t.a) + Size(t.r) else 1
  }

  // --- acyclicity ---

  function Max(a: nat, b: nat): nat {
    if a < b then b else a
  }

  /** One more than the highest rank among the variables of `t`. */
  function Height(rk: seq<nat>, t: Type): nat
    requires InRange(|rk|, t)
  {
    match t
    case TVar(i) => rk[i] + 1
    case Fun(a, r) => Max(Height(rk, a), Height(rk, r))
    case _ => 0
  }

  /** Every bound variable outranks the variables of the type it is bound to. */
  ghost predicate Ranked(st: Subst, rk: seq<nat>) {
    && |rk| == |st|
    && forall i :: 0 <= i < |st| && st[i].Some? ==> InRange(|st|, st[i].value) && Height(rk, st[i].value) <= rk[i]
  }

  ghost predicate Acyclic(st: Subst) {
    exists rk :: Ranked(st, rk)
  }

  ghost function RankOf(st: Subst): (rk: seq<nat>)
    requires Acyclic(st)
    ensures Ranked(st, rk)
  {
    var rk :| Ranked(st, rk);
    rk
  }

  // --- reading through a substitution ---

  /** What `t` stands for at its head: a shape, or a variable nothing is known of. */
  function Walk(st: Subst, t: Type): (r: Type)
    requires Acyclic(st) && InRange(|st|, t)
    ensures InRange(|st|, r) && (r.TVar? ==> st[r.i].None?)
    ensures Height(RankOf(st), r) <= Height(RankOf(st), t)
    ensures r != t ==> Height(RankOf(st), r) < Height(RankOf(st), t)
    decreases Height(RankOf(st), t)
  {
    if t.TVar? && st[t.i].Some? then Walk(st, st[t.i].value) else t
  }

  /** Resolve `t` completely. */
  function Apply(st: Subst, t: Type): (r: Type)
    requires Acyclic(st) && InRange(|st|, t)
    ensures InRange(|st|, r) && (forall v :: v in Vars(r) ==> v < |st| && st[v].None?)
    decreases Height(RankOf(st), t), t
  {
    match t
    case TVar(i) => if st[i].Some? then Apply(st, st[i].value) else t
    case Fun(a, r) => Fun(Apply(st, a), Apply(st, r))
    case _ => t
  }

  predicate Occurs(st: Subst, v: nat, t: Type)
    requires Acyclic(st) && InRange(|st|, t)
    decreases Height(RankOf(st), t), t
  {
    var w := Walk(st, t);
    match w
    case TVar(i) => i == v
    case Fun(a, r) => Occurs(st, v, a) || Occurs(st, v, r)
    case _ => false
  }

  lemma {:induction false} ApplyWalks(st: Subst, t: Type)
    requires Acyclic(st) && InRange(|st|, t)
    ensures Apply(st, Walk(st, t)) == Apply(st, t)
    decreases Height(RankOf(st), t)
  {
    if t.TVar? && st[t.i].Some? { ApplyWalks(st, st[t.i].value); }
  }

  lemma {:induction false} OccursIsVars(st: Subst, v: nat, t: Type)
    requires Acyclic(st) && InRange(|st|, t)
    ensures Occurs(st, v, t) <==> v in Vars(Apply(st, t))
    decreases Height(RankOf(st), t), t
  {
    var w := Walk(st, t);
    ApplyWalks(st, t);
    if w.Fun? {
      OccursIsVars(st, v, w.a);
      OccursIsVars(st, v, w.r);
    }
  }

  // --- binding a variable ---

  /** Ranks after binding `i`: whatever reaches `i` is lifted by `up`. */
  ghost function Lifted(st: Subst, rk: seq<nat>, i: nat, up: nat): (rk': seq<nat>)
    requires Acyclic(st) && |rk| == |st|
    ensures |rk'| == |rk|
    ensures forall j :: 0 <= j < |rk| ==> rk'[j] == rk[j] + if i in Vars(Apply(st, TVar(j))) then up else 0
  {
    seq(|rk|, j requires 0 <= j < |rk| => rk[j] + if i in Vars(Apply(st, TVar(j))) then up else 0)
  }

  /** A type none of whose variables reaches `i` keeps its height; any type grows by at most `up`. */
  lemma {:induction false} LiftedHeight(st: Subst, rk: seq<nat>, i: nat, up: nat, t: Type)
    requires Acyclic(st) && |rk| == |st| && InRange(|st|, t)
    ensures var h := Height(Lifted(st, rk, i, up), t);
            h <= Height(rk, t) + (if i in Vars(Apply(st, t)) then up else 0)
  {
    if t.Fun? {
      LiftedHeight(st, rk, i, up, t.a);
      LiftedHeight(st, rk, i, up, t.r);
    }
  }

  lemma BindKeepsAcyclic(st: Subst, i: nat, t: Type)
    requires Acyclic(st) && i < |st| && st[i].None? && InRange(|st|, t) && !Occurs(st, i, t)
    ensures Acyclic(st[i := Some(t)])
  {
    var rk := RankOf(st);
    var st', rk' := st[i := Some(t)], Lifted(st, rk, i, Height(rk, t));
    OccursIsVars(st, i, t);
    forall k | 0 <= k < |st'| && st'[k].Some?
      ensures InRange(|st|, st'[k].value) && Height(rk', st'[k].value) <= rk'[k]
    {
      LiftedHeight(st, rk, i, Height(rk, t), st'[k].value);
      assert k != i ==> Apply(st, TVar(k)) == Apply(st, st[k].value);
    }
    assert Ranked(st', rk');
  }

  // --- unification ---

  function Unbounds(st: Subst): nat {
    if st == [] then 0 else Unbounds(st[1..]) + if st[0].None? then 1 else 0
  }

  lemma {:induction false} BindingCounts(st: Subst, i: nat, t: Type)
    requires i < |st| && st[i].None?
    ensures Unbounds(st[i := Some(t)]) + 1 == Unbounds(st)
  {
    if i > 0 {
      BindingCounts(st[1..], i - 1, t);
      assert st[i := Some(t)][1..] == st[1..][i - 1 := Some(t)];
    } else {
      assert st[i := Some(t)][1..] == st[1..];
    }
  }

  datatype Unified = Solved(st: Subst) | Failed(clash: Clash)

  predicate Extends(st: Subst, st': Subst) {
    && |st| <= |st'|
    && forall i :: 0 <= i < |st| && st[i].Some? ==> st'[i] == st[i]
  }

  /** What unification promises of the substitution it leaves. */
  ghost predicate Grown(st: Subst, u: Unified) {
    u.Solved? ==>
      && Acyclic(u.st)
      && |u.st| == |st|
      && Extends(st, u.st)
      && (u.st == st || Unbounds(u.st) < Unbounds(st))
  }

  function BindVar(st: Subst, i: nat, t: Type): (u: Unified)
    requires Acyclic(st) && i < |st| && st[i].None? && InRange(|st|, t)
    ensures Grown(st, u)
  {
    if Occurs(st, i, t) then Failed(Infinite)
    else
      BindKeepsAcyclic(st, i, t);
      BindingCounts(st, i, t);
      Solved(st[i := Some(t)])
  }

  lemma PartsShrink(st: Subst, t: Type)
    requires Acyclic(st) && InRange(|st|, t)
    ensures var x := Walk(st, t);
            x.Fun? ==> Size(Apply(st, x.a)) < Size(Apply(st, t)) && Size(Apply(st, x.r)) < Size(Apply(st, t))
  {
    ApplyWalks(st, t);
  }

  function Unify(st: Subst, a: Type, b: Type): (u: Unified)
    requires Acyclic(st) && InRange(|st|, a) && InRange(|st|, b)
    ensures Grown(st, u)
    decreases Unbounds(st), Size(Apply(st, a))
  {
    hide Apply, Occurs, Height, Size, BindVar, Unbounds, Vars;
    var x, y := Walk(st, a), Walk(st, b);
    if x.TVar? then if x == y then Solved(st) else BindVar(st, x.i, y)
    else if y.TVar? then BindVar(st, y.i, x)
    else if x.Fun? && y.Fun? then
      PartsShrink(st, a);
      match Unify(st, x.a, y.a)
      case Failed(c) => Failed(c)
      case Solved(st1) => Unify(st1, x.r, y.r)
    else if x == y then Solved(st)
    else Failed(Types(x.Hint(), y.Hint()))
  }

  /** A clash names what stands left and what stands right, where two heads differ. */
  lemma HeadsClash(st: Subst, a: Type, b: Type)
    requires Acyclic(st) && InRange(|st|, a) && InRange(|st|, b)
    ensures var x, y := Walk(st, a), Walk(st, b);
            !x.TVar? && !y.TVar? && !(x.Fun? && y.Fun?) ==>
              Unify(st, a, b) == if x == y then Solved(st) else Failed(Types(x.Hint(), y.Hint()))
  {
    hide Occurs, Height, Apply;
  }

  // --- solutions ---

  /** Replace every variable by its entry. */
  function Sub(th: seq<Type>, t: Type): Type {
    match t
    case TVar(i) => if i < |th| then th[i] else t
    case Fun(a, r) => Fun(Sub(th, a), Sub(th, r))
    case _ => t
  }

  /** `th` satisfies every equation of the substitution. */
  predicate Solves(th: seq<Type>, st: Subst) {
    && |st| <= |th|
    && forall i :: 0 <= i < |st| && st[i].Some? ==> th[i] == Sub(th, st[i].value)
  }

  lemma {:induction false} Wider(n: nat, m: nat, t: Type)
    requires InRange(n, t) && n <= m
    ensures InRange(m, t)
  {
    if t.Fun? {
      Wider(n, m, t.a);
      Wider(n, m, t.r);
    }
  }

  lemma {:induction false} Longer(th: seq<Type>, th': seq<Type>, t: Type)
    requires InRange(|th|, t) && th <= th'
    ensures Sub(th', t) == Sub(th, t)
  {
    if t.Fun? {
      Longer(th, th', t.a);
      Longer(th, th', t.r);
    }
  }

  lemma {:induction false} SolvesWalk(th: seq<Type>, st: Subst, t: Type)
    requires Acyclic(st) && InRange(|st|, t) && Solves(th, st)
    ensures Sub(th, Walk(st, t)) == Sub(th, t)
    decreases Height(RankOf(st), t)
  {
    if t.TVar? && st[t.i].Some? { SolvesWalk(th, st, st[t.i].value); }
  }

  lemma {:induction false} SolvesApply(th: seq<Type>, st: Subst, t: Type)
    requires Acyclic(st) && InRange(|st|, t) && Solves(th, st)
    ensures Sub(th, Apply(st, t)) == Sub(th, t)
    decreases Height(RankOf(st), t), t
  {
    if t.TVar? && st[t.i].Some? {
      SolvesApply(th, st, st[t.i].value);
    } else if t.Fun? {
      SolvesApply(th, st, t.a);
      SolvesApply(th, st, t.r);
    }
  }

  lemma {:induction false} SubGrows(th: seq<Type>, v: nat, t: Type)
    requires v < |th| && v in Vars(t)
    ensures Size(th[v]) <= Size(Sub(th, t)) && (t.Fun? ==> Size(th[v]) < Size(Sub(th, t)))
  {
    if t.Fun? {
      if v in Vars(t.a) { SubGrows(th, v, t.a); } else { SubGrows(th, v, t.r); }
    }
  }

  /** `u` has exactly the solutions that satisfy `st` and one more equation. */
  predicate Exact(th: seq<Type>, st: Subst, equal: bool, u: Unified) {
    if u.Solved? then Solves(th, u.st) <==> Solves(th, st) && equal else !(Solves(th, st) && equal)
  }

  lemma BindVarExact(st: Subst, i: nat, t: Type, th: seq<Type>)
    requires Acyclic(st) && i < |st| && st[i].None? && InRange(|st|, t) && Walk(st, t) == t && t != TVar(i)
    requires |st| <= |th|
    ensures Exact(th, st, th[i] == Sub(th, t), BindVar(st, i, t))
  {
    if Occurs(st, i, t) {
      if Solves(th, st) {
        OccursIsVars(st, i, t);
        SolvesApply(th, st, t);
        SubGrows(th, i, Apply(st, t));
      }
    } else {
      var st' := st[i := Some(t)];
      if Solves(th, st') {
        assert th[i] == Sub(th, st'[i].value);
        forall k | 0 <= k < |st| && st[k].Some? ensures th[k] == Sub(th, st[k].value) {
          assert st'[k] == st[k];
        }
      }
    }
  }

  /** Unification is exact: the solutions of what it leaves are the solutions it started from
      that equate the two types, and it fails only when there is none. */
  lemma {:induction false} UnifyIsExact(st: Subst, a: Type, b: Type, th: seq<Type>)
    requires Acyclic(st) && InRange(|st|, a) && InRange(|st|, b) && |st| <= |th|
    ensures Exact(th, st, Sub(th, a) == Sub(th, b), Unify(st, a, b))
    decreases Unbounds(st), Size(Apply(st, a))
  {
    hide Apply, BindVar, Occurs, Solves;
    var x, y := Walk(st, a), Walk(st, b);
    WalkTwice(st, a);
    WalkTwice(st, b);
    if Solves(th, st) {
      SolvesWalk(th, st, a);
      SolvesWalk(th, st, b);
    }
    if x.TVar? {
      if x != y { BindVarExact(st, x.i, y, th); }
    } else if y.TVar? {
      BindVarExact(st, y.i, x, th);
    } else if x.Fun? && y.Fun? {
      PartsShrink(st, a);
      UnifyIsExact(st, x.a, y.a, th);
      var u := Unify(st, x.a, y.a);
      if u.Solved? {
        UnifyIsExact(u.st, x.r, y.r, th);
      }
    }
  }

  lemma WalkTwice(st: Subst, t: Type)
    requires Acyclic(st) && InRange(|st|, t)
    ensures Walk(st, Walk(st, t)) == Walk(st, t)
  {
  }

  // --- the resolved substitution is a solution, and the most general one ---

  function Full(st: Subst): (th: seq<Type>)
    requires Acyclic(st)
    ensures |th| == |st| && forall i :: 0 <= i < |st| ==> th[i] == Apply(st, TVar(i))
  {
    seq(|st|, i requires 0 <= i < |st| => Apply(st, TVar(i)))
  }

  lemma {:induction false} FullResolves(st: Subst, t: Type)
    requires Acyclic(st) && InRange(|st|, t)
    ensures Sub(Full(st), t) == Apply(st, t)
  {
    if t.Fun? {
      FullResolves(st, t.a);
      FullResolves(st, t.r);
    }
  }

  lemma FullSolves(st: Subst)
    requires Acyclic(st)
    ensures Solves(Full(st), st)
  {
    forall i | 0 <= i < |st| && st[i].Some?
      ensures Full(st)[i] == Sub(Full(st), st[i].value)
    {
      assert Ranked(st, RankOf(st));
      FullResolves(st, st[i].value);
    }
  }

  /** On success the two types resolve to one type, and every unifier that respects what was
      known before factors through the resolved substitution. */
  lemma UnifyIsMostGeneral(st: Subst, a: Type, b: Type, th: seq<Type>)
    requires Acyclic(st) && InRange(|st|, a) && InRange(|st|, b)
    requires Unify(st, a, b).Solved?
    ensures var st' := Unify(st, a, b).st;
            && Apply(st', a) == Apply(st', b)
            && (Solves(th, st) && Sub(th, a) == Sub(th, b) ==> forall t | InRange(|st|, t) :: Sub(th, t) == Sub(th, Apply(st', t)))
  {
    var st' := Unify(st, a, b).st;
    FullSolves(st');
    UnifyIsExact(st, a, b, Full(st'));
    FullResolves(st', a);
    FullResolves(st', b);
    if Solves(th, st) && Sub(th, a) == Sub(th, b) {
      UnifyIsExact(st, a, b, th);
      forall t | InRange(|st|, t) ensures Sub(th, t) == Sub(th, Apply(st', t)) { SolvesApply(th, st', t); }
    }
  }
}
