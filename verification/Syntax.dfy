/** The parts of an expression, and where an op may stand in it. */
module Syntax {
  import opened Core
  import opened Meaning
  import opened Inference

  /** The immediate subexpressions. */
  function Subs(e: Expr): (r: seq<Expr>)
    ensures forall i :: 0 <= i < |r| ==> r[i] < e
    ensures First(e).Some? ==> |r| > 0 && r[0] == First(e).value
  {
    match e
    case Lit(_) | Var(_) | Arg | Ask(_) | Nihil | Lege => []
    case Lam(_, b) => [b]
    case App(f, a) => [f, a]
    case If(c, t, f) => [c, t, f]
    case Fix(f) => [f]
    case Pure(_, m) => [m]
    case Return(_, m) => [m]
    case Bind(_, m, _, k) => [m, k]
    case Resolve(_, g) => [g]
    case Clama(m) => [m]
    case Recipe(m, _, h) => [m, h]
    case Pone(m) => [m]
    case Mitte(m) => [m]
    case Perage(m) => [m]
    case Lift(m) => [m]
  }

  /** The layers sure to be visible to the parts of `e`: a function body, and the operand of a
      fixpoint, may run at any depth, but never with no layer at all. */
  function Room(e: Expr, n: nat): nat {
    match e
    case Lam(_, _) | Fix(_) => 1
    case Lift(_) => if n <= 1 then 1 else n - 1
    case _ => n
  }

  predicate Does(e: Expr, op: OpKind) {
    if e.Lift? then op.OpLift? else Needs(e).Some? && OpOf(e) == op
  }

  /** Where `n` layers are sure to be visible to `e`, the op stands only where more than `bar`
      are, in `e` and in the answers it may resolve to. */
  predicate AtHome(fugues: seq<Fugue>, lv: nat, op: OpKind, bar: nat, n: nat, e: Expr)
    decreases lv, e
  {
    && (Does(e, op) ==> n > bar)
    && (forall i :: 0 <= i < |Subs(e)| ==> AtHome(fugues, lv, op, bar, Room(e, n), Subs(e)[i]))
    && (e.Resolve? && lv > 0 ==> forall i :: 0 <= i < |Answers(fugues)| && Answers(fugues)[i].name == e.x ==>
          AtHome(fugues, lv - 1, op, bar, n, Answers(fugues)[i].body))
  }

  lemma {:induction false} MoreRoom(fugues: seq<Fugue>, lv: nat, op: OpKind, bar: nat, n: nat, n': nat, e: Expr)
    requires AtHome(fugues, lv, op, bar, n, e) && n <= n'
    ensures AtHome(fugues, lv, op, bar, n', e)
    decreases lv, e
  {
    hide Answers, Subs, Does;
    forall i | 0 <= i < |Subs(e)| ensures AtHome(fugues, lv, op, bar, Room(e, n'), Subs(e)[i]) {
      MoreRoom(fugues, lv, op, bar, Room(e, n), Room(e, n'), Subs(e)[i]);
    }
    if e.Resolve? && lv > 0 {
      forall i | 0 <= i < |Answers(fugues)| && Answers(fugues)[i].name == e.x
        ensures AtHome(fugues, lv - 1, op, bar, n', Answers(fugues)[i].body)
      {
        MoreRoom(fugues, lv - 1, op, bar, n, n', Answers(fugues)[i].body);
      }
    }
  }

  /** What stands above a bar stands above a lower one. */
  lemma {:induction false} LowerBar(fugues: seq<Fugue>, lv: nat, op: OpKind, bar: nat, bar': nat, n: nat, e: Expr)
    requires AtHome(fugues, lv, op, bar, n, e) && bar' <= bar
    ensures AtHome(fugues, lv, op, bar', n, e)
    decreases lv, e
  {
    hide Answers, Subs, Does;
    forall i | 0 <= i < |Subs(e)| ensures AtHome(fugues, lv, op, bar', Room(e, n), Subs(e)[i]) {
      LowerBar(fugues, lv, op, bar, bar', Room(e, n), Subs(e)[i]);
    }
    if e.Resolve? && lv > 0 {
      forall i | 0 <= i < |Answers(fugues)| && Answers(fugues)[i].name == e.x
        ensures AtHome(fugues, lv - 1, op, bar', n, Answers(fugues)[i].body)
      {
        LowerBar(fugues, lv - 1, op, bar, bar', n, Answers(fugues)[i].body);
      }
    }
  }

  lemma {:induction false} Mentioned(os: seq<Overload>, x: Sym)
    ensures Mentions(os, x) <==> exists i :: 0 <= i < |os| && os[i].name == x
  {
    if os != [] {
      Mentioned(os[1..], x);
      if i :| 0 <= i < |os| - 1 && os[1..][i].name == x { assert os[i + 1].name == x; }
      if i :| 0 <= i < |os| && os[i].name == x { assert i == 0 || os[1..][i - 1].name == x; }
    }
  }

  /** No fixpoint in it. */
  predicate FixFree(e: Expr) {
    !e.Fix? && forall i :: 0 <= i < |Subs(e)| ==> FixFree(Subs(e)[i])
  }

  predicate FixFreeProgram(fugues: seq<Fugue>) {
    forall i :: 0 <= i < |Answers(fugues)| ==> FixFree(Answers(fugues)[i].body)
  }
}
