/** Which states of the checker some types close: a deferred predicate on a variable that is never
    resolved is let pass, so two that ask different things of one variable both pass (check.rs). */
module Closings {
  import opened Core
  import opened Unification
  import opened Inference
  import opened Typing
  import opened Verses

  /** No two predicates ask different things of one unresolved variable. */
  predicate Unanimous(c: State)
    requires Good(c)
  {
    forall i, j :: 0 <= i < |c.preds| && 0 <= j < |c.preds| ==> AskAlike(c, c.preds[i], c.preds[j])
  }

  predicate AskAlike(c: State, p: Pred, q: Pred)
    requires Good(c) && InRange(|c.st|, p.ty) && InRange(|c.st|, q.ty)
  {
    Walk(c.st, p.ty).TVar? && Walk(c.st, p.ty) == Walk(c.st, q.ty) ==> p.allowed == q.allowed
  }

  /** A type that meets the choice. */
  function Pick(c: Choice): (t: Type)
    ensures t.Hint() in c
  {
    if c == CMD_OR_PLAN then TCmd else if c == GENUS_OR_STR then TGenus else Fun(TUnit, TUnit)
  }

  /** What the predicates from `k` on ask of the unresolved variable `v`. */
  function Wish(c: State, v: nat, k: nat): (t: Type)
    requires Good(c) && k <= |c.preds|
    decreases |c.preds| - k
  {
    if k == |c.preds| then TUnit
    else if Walk(c.st, c.preds[k].ty) == TVar(v) then Pick(c.preds[k].allowed)
    else Wish(c, v, k + 1)
  }

  lemma {:induction false} WishGranted(c: State, v: nat, k: nat, i: nat)
    requires Good(c) && Unanimous(c) && k <= i < |c.preds| && Walk(c.st, c.preds[i].ty) == TVar(v)
    ensures Wish(c, v, k).Hint() in c.preds[i].allowed
    decreases |c.preds| - k
  {
    hide Walk, Acyclic;
    if Walk(c.st, c.preds[k].ty) == TVar(v) {
      assert AskAlike(c, c.preds[k], c.preds[i]);
    } else {
      WishGranted(c, v, k + 1, i);
    }
  }

  function Wishes(c: State): (r: seq<Type>)
    requires Good(c)
    ensures |r| == |c.st| && forall v :: 0 <= v < |r| ==> r[v] == Wish(c, v, 0)
  {
    seq(|c.st|, v requires 0 <= v < |c.st| => Wish(c, v, 0))
  }

  /** Everything resolved, and the unresolved variables as they are wished for. */
  function Closing(c: State): (th: seq<Type>)
    requires Good(c)
    ensures |th| == |c.st| && forall i :: 0 <= i < |th| ==> th[i] == Sub(Wishes(c), Apply(c.st, TVar(i)))
  {
    seq(|c.st|, i requires 0 <= i < |c.st| => Sub(Wishes(c), Apply(c.st, TVar(i))))
  }

  lemma {:induction false} ClosingResolves(c: State, t: Type)
    requires Good(c) && InRange(|c.st|, t)
    ensures Sub(Closing(c), t) == Sub(Wishes(c), Apply(c.st, t))
  {
    hide Acyclic;
    if t.Fun? {
      ClosingResolves(c, t.a);
      ClosingResolves(c, t.r);
    }
  }

  lemma ClosingSolves(c: State)
    requires Good(c)
    ensures Solves(Closing(c), c.st)
  {
    var th := Closing(c);
    forall i | 0 <= i < |c.st| && c.st[i].Some? ensures th[i] == Sub(th, c.st[i].value) {
      assert Ranked(c.st, RankOf(c.st));
      ClosingResolves(c, c.st[i].value);
    }
  }

  /** Head shapes survive a substitution. */
  lemma HintStays(th: seq<Type>, st: Subst, t: Type)
    requires Acyclic(st) && InRange(|st|, t) && Solves(th, st) && !Walk(st, t).TVar?
    ensures Sub(th, t).Hint() == Walk(st, t).Hint()
  {
    SolvesWalk(th, st, t);
  }

  lemma ClosingPasses(c: State, i: nat)
    requires Good(c) && Unanimous(c) && i < |c.preds| && PredPasses(c.st, c.preds[i])
    ensures Sub(Closing(c), c.preds[i].ty).Hint() in c.preds[i].allowed
  {
    var th, p := Closing(c), c.preds[i];
    var t := Walk(c.st, p.ty);
    ClosingSolves(c);
    if t.TVar? {
      SolvesWalk(th, c.st, p.ty);
      assert th[t.i] == Sub(Wishes(c), Apply(c.st, t)) == Wishes(c)[t.i];
      WishGranted(c, t.i, 0, i);
    } else {
      HintStays(th, c.st, p.ty);
    }
  }

  lemma ChoicesApart(p: Choice, q: Choice, h: TyHint)
    requires h in p && h in q
    ensures p == q
  {
  }

  lemma ClosedIsUnanimous(c: State, th: seq<Type>)
    requires Good(c) && Closes(th, c)
    ensures Unanimous(c) && forall i :: 0 <= i < |c.preds| ==> PredPasses(c.st, c.preds[i])
  {
    hide Walk, Acyclic;
    forall i | 0 <= i < |c.preds| ensures PredPasses(c.st, c.preds[i]) {
      if !Walk(c.st, c.preds[i].ty).TVar? { HintStays(th, c.st, c.preds[i].ty); }
    }
    forall i, j | 0 <= i < |c.preds| && 0 <= j < |c.preds| ensures AskAlike(c, c.preds[i], c.preds[j]) {
      var p, q := c.preds[i], c.preds[j];
      SolvesWalk(th, c.st, p.ty);
      SolvesWalk(th, c.st, q.ty);
      if Walk(c.st, p.ty) == Walk(c.st, q.ty) { ChoicesApart(p.allowed, q.allowed, Sub(th, p.ty).Hint()); }
    }
  }

  /** Some types close a state exactly if its predicates pass and no two of them ask different
      things of one unresolved variable. */
  lemma ClosableExactly(c: State)
    requires Good(c)
    ensures (exists th :: Closes(th, c)) <==> CheckPreds(c, 0).Ok? && Unanimous(c)
    ensures CheckPreds(c, 0).Ok? && Unanimous(c) ==> Closes(Closing(c), c)
  {
    hide Solves, Acyclic, Unanimous, PredPasses;
    if th :| Closes(th, c) { ClosedIsUnanimous(c, th); }
    if CheckPreds(c, 0).Ok? && Unanimous(c) {
      ClosingSolves(c);
      forall i | 0 <= i < |c.preds| ensures Sub(Closing(c), c.preds[i].ty).Hint() in c.preds[i].allowed {
        ClosingPasses(c, i);
      }
      assert Closes(Closing(c), c);
    }
  }

  /** The state the checker ends in can be closed exactly if it is unanimous: its predicates have
      passed. */
  lemma AcceptedIsClosable(fugues: seq<Fugue>, lv: nat, v: Versus)
    requires CheckVersus(fugues, lv, v).Ok?
    ensures var c := CheckVersus(fugues, lv, v).val; (exists th :: Closes(th, c)) <==> Unanimous(c)
  {
    hide Unanimous, Closes;
    AcceptedPasses(fugues, lv, v);
    ClosableExactly(CheckVersus(fugues, lv, v).val);
  }

  lemma AcceptedPasses(fugues: seq<Fugue>, lv: nat, v: Versus)
    requires CheckVersus(fugues, lv, v).Ok?
    ensures CheckPreds(CheckVersus(fugues, lv, v).val, 0).Ok?
  {
    hide Infer, Spine, UnifyRhymes, Acyclic, PredPasses;
    StartReady(fugues);
  }

  // --- closings at given types ---

  lemma {:induction false} GroundStays(th: seq<Type>, n: nat, t: Type)
    requires Vars(t) == {}
    ensures Sub(th, t) == t && InRange(n, t)
  {
    if t.Fun? {
      GroundStays(th, n, t.a);
      GroundStays(th, n, t.r);
    }
  }

  /** The state in which `a` has been equated with `t`, if what is deferred can still be met. */
  predicate Admits(c: State, a: Type, t: Type)
    requires Good(c) && InRange(|c.st|, a) && InRange(|c.st|, t)
  {
    var r := Equate(c, a, t);
    r.Ok? && CheckPreds(r.val, 0).Ok? && Unanimous(r.val)
  }

  /** A state has a closing that gives `a` the type `t`, which has no variables, exactly if
      unifying the two leaves a state that can be closed. */
  lemma ClosesAt(c: State, a: Type, t: Type)
    requires Good(c) && InRange(|c.st|, a) && Vars(t) == {}
    ensures InRange(|c.st|, t)
    ensures (exists th :: Closes(th, c) && Sub(th, a) == t) <==> Admits(c, a, t)
  {
    hide Unanimous, Acyclic, PredsHold;
    GroundStays([], |c.st|, t);
    var r := Equate(c, a, t);
    if th :| Closes(th, c) && Sub(th, a) == t {
      GroundStays(th, |c.st|, t);
      UnifyIsExact(c.st, a, t, th);
      assert r.Ok? && Closes(th, r.val);
      ClosableExactly(r.val);
    }
    if Admits(c, a, t) {
      ClosableExactly(r.val);
      var th :| Closes(th, r.val);
      GroundStays(th, |c.st|, t);
      UnifyIsExact(c.st, a, t, th);
      assert Closes(th, c) && Sub(th, a) == t;
    }
  }

  /** The same for the input's type and, where one is asked for, the cell's. */
  predicate InputsFit(c: State, arg: Type, cell: Option<Type>)
    requires Good(c) && |c.st| >= 2 && InRange(|c.st|, arg) && (cell.Some? ==> InRange(|c.st|, cell.value))
  {
    if cell.None? then Admits(c, TVar(0), arg)
    else Equate(c, TVar(0), arg).Ok? && Admits(Equate(c, TVar(0), arg).val, TVar(1), cell.value)
  }

  /** The types a closing gives the input and the cell. */
  predicate Gives(th: seq<Type>, arg: Type, cell: Option<Type>) {
    |th| >= 2 && th[0] == arg && (cell.Some? ==> th[1] == cell.value)
  }

  predicate Ground(t: Type) {
    Vars(t) == {}
  }

  lemma ClosesAtInputs(c: State, arg: Type, cell: Option<Type>)
    requires Good(c) && |c.st| >= 2 && Ground(arg) && (cell.Some? ==> Ground(cell.value))
    ensures InRange(|c.st|, arg) && (cell.Some? ==> InRange(|c.st|, cell.value))
    ensures (exists th :: Closes(th, c) && Gives(th, arg, cell)) <==> InputsFit(c, arg, cell)
  {
    hide Unanimous, Acyclic, PredsHold, CheckPreds, Unify;
    GroundStays([], |c.st|, arg);
    if cell.None? {
      ClosesAt(c, TVar(0), arg);
      forall th | Closes(th, c) ensures Sub(th, TVar(0)) == arg <==> Gives(th, arg, cell) { assert |th| >= |c.st|; }
    } else {
      GroundStays([], |c.st|, cell.value);
      var r := Equate(c, TVar(0), arg);
      forall th: seq<Type> | |th| >= |c.st|
        ensures Closes(th, c) && th[0] == arg <==> r.Ok? && Closes(th, r.val)
      {
        GroundStays(th, |c.st|, arg);
        UnifyIsExact(c.st, TVar(0), arg, th);
      }
      if r.Ok? {
        ClosesAt(r.val, TVar(1), cell.value);
        forall th | Closes(th, r.val) ensures Sub(th, TVar(1)) == cell.value <==> th[1] == cell.value { assert |th| >= |c.st|; }
      }
    }
  }
}
