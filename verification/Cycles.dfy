/** Overloads that resolve overloads: how deep they nest, and when they do not end. */
module Cycles {
  import opened Core
  import opened Inference
  import opened Syntax

  /** Overloads resolve overloads at most `lv` deep, from `e` on. */
  predicate Grounded(fugues: seq<Fugue>, lv: nat, e: Expr)
    decreases lv, e
  {
    && (forall i :: 0 <= i < |Subs(e)| ==> Grounded(fugues, lv, Subs(e)[i]))
    && (e.Resolve? ==> forall i :: 0 <= i < |Answers(fugues)| && Answers(fugues)[i].name == e.x ==>
          lv > 0 && Grounded(fugues, lv - 1, Answers(fugues)[i].body))
  }

  lemma Grounds(fugues: seq<Fugue>, lv: nat, e: Expr)
    requires Grounded(fugues, lv, e)
    ensures forall m :: m in Subs(e) ==> Grounded(fugues, lv, m)
  {
    hide Subs, Answers;
  }

  /** The name is resolved somewhere in `e`. */
  predicate Resolves(e: Expr, x: Sym) {
    (e.Resolve? && e.x == x) || exists i :: 0 <= i < |Subs(e)| && Resolves(Subs(e)[i], x)
  }

  /** Answers by their numbers, each for a name resolved in the one before it, the first in `e`. */
  predicate Chain(fugues: seq<Fugue>, e: Expr, path: seq<nat>)
    decreases |path|
  {
    path == [] ||
      (path[0] < |Answers(fugues)| && Resolves(e, Answers(fugues)[path[0]].name) &&
       Chain(fugues, Answers(fugues)[path[0]].body, path[1..]))
  }

  /** From `e` on an answer is reached that leads back to itself. */
  ghost predicate Cyclic(fugues: seq<Fugue>, e: Expr) {
    exists path, i, j :: 0 <= i < j < |path| && path[i] == path[j] && Chain(fugues, e, path)
  }

  // --- depth is the length of chains ---

  lemma {:induction false} Reached(fugues: seq<Fugue>, lv: nat, e: Expr, i: nat)
    requires Grounded(fugues, lv, e) && i < |Answers(fugues)| && Resolves(e, Answers(fugues)[i].name)
    ensures lv > 0 && Grounded(fugues, lv - 1, Answers(fugues)[i].body)
    decreases e
  {
    hide Subs, Answers;
    var x := Answers(fugues)[i].name;
    if !(e.Resolve? && e.x == x) {
      var k :| 0 <= k < |Subs(e)| && Resolves(Subs(e)[k], x);
      Reached(fugues, lv, Subs(e)[k], i);
    }
  }

  lemma {:induction false} ChainsEnd(fugues: seq<Fugue>, lv: nat, e: Expr, path: seq<nat>)
    requires Grounded(fugues, lv, e) && Chain(fugues, e, path)
    ensures |path| <= lv
    decreases |path|
  {
    hide Grounded, Resolves, Answers;
    if path != [] {
      Reached(fugues, lv, e, path[0]);
      ChainsEnd(fugues, lv - 1, Answers(fugues)[path[0]].body, path[1..]);
    }
  }

  lemma ChainOfPart(fugues: seq<Fugue>, e: Expr, k: nat, path: seq<nat>)
    requires k < |Subs(e)| && Chain(fugues, Subs(e)[k], path)
    ensures Chain(fugues, e, path)
  {
    hide Subs, Answers;
  }

  lemma ChainFrom(fugues: seq<Fugue>, e: Expr, i: nat, path: seq<nat>)
    requires i < |Answers(fugues)| && Resolves(e, Answers(fugues)[i].name) && Chain(fugues, Answers(fugues)[i].body, path)
    ensures Chain(fugues, e, [i] + path)
  {
    hide Answers, Resolves;
    assert ([i] + path)[1..] == path;
  }

  lemma {:induction false} LongChain(fugues: seq<Fugue>, lv: nat, e: Expr) returns (path: seq<nat>)
    requires !Grounded(fugues, lv, e)
    ensures |path| == lv + 1 && Chain(fugues, e, path)
    decreases lv, e
  {
    hide Subs, Answers;
    if k :| 0 <= k < |Subs(e)| && !Grounded(fugues, lv, Subs(e)[k]) {
      path := LongChain(fugues, lv, Subs(e)[k]);
      ChainOfPart(fugues, e, k, path);
    } else {
      var i :| 0 <= i < |Answers(fugues)| && Answers(fugues)[i].name == e.x &&
               !(lv > 0 && Grounded(fugues, lv - 1, Answers(fugues)[i].body));
      path := [];
      if lv > 0 { path := LongChain(fugues, lv - 1, Answers(fugues)[i].body); }
      ChainFrom(fugues, e, i, path);
      path := [i] + path;
    }
  }

  // --- a chain longer than there are answers comes back to one ---

  lemma {:induction false} ChainNumbers(fugues: seq<Fugue>, e: Expr, path: seq<nat>)
    requires Chain(fugues, e, path)
    ensures forall i :: 0 <= i < |path| ==> path[i] < |Answers(fugues)|
    decreases |path|
  {
    hide Answers, Resolves;
    if path != [] {
      ChainNumbers(fugues, Answers(fugues)[path[0]].body, path[1..]);
      forall i | 0 <= i < |path| ensures path[i] < |Answers(fugues)| { if i > 0 { assert path[1..][i - 1] == path[i]; } }
    }
  }

  function Below(n: nat): (r: set<nat>)
    ensures |r| == n && forall i :: i in r <==> 0 <= i < n
  {
    if n == 0 then {} else Below(n - 1) + {n - 1}
  }

  /** Different numbers from `s` alone are no more than there are in it. */
  lemma {:induction false} DistinctFit(path: seq<nat>, s: set<nat>)
    requires forall i :: 0 <= i < |path| ==> path[i] in s
    requires forall i, j :: 0 <= i < j < |path| ==> path[i] != path[j]
    ensures |path| <= |s|
    decreases |path|
  {
    if path != [] {
      var rest := path[1..];
      assert forall i :: 0 <= i < |rest| ==> rest[i] == path[i + 1];
      DistinctFit(rest, s - {path[0]});
    }
  }

  // --- a chain that comes back goes round as often as one likes ---

  lemma {:induction false} ChainSplits(fugues: seq<Fugue>, e: Expr, p: seq<nat>, q: seq<nat>)
    requires p != [] && p[|p| - 1] < |Answers(fugues)|
    ensures Chain(fugues, e, p + q) <==> Chain(fugues, e, p) && Chain(fugues, Answers(fugues)[p[|p| - 1]].body, q)
    decreases |p|
  {
    hide Answers, Resolves;
    assert (p + q)[1..] == p[1..] + q && (p + q)[0] == p[0];
    if |p| == 1 {
      assert p[1..] == [] && p[1..] + q == q;
    } else if p[0] < |Answers(fugues)| {
      ChainSplits(fugues, Answers(fugues)[p[0]].body, p[1..], q);
    }
  }

  lemma {:induction false} Rounds(fugues: seq<Fugue>, i: nat, loop: seq<nat>, n: nat) returns (path: seq<nat>)
    requires i < |Answers(fugues)| && loop != [] && loop[|loop| - 1] == i && Chain(fugues, Answers(fugues)[i].body, loop)
    ensures |path| >= n && Chain(fugues, Answers(fugues)[i].body, path)
    decreases n
  {
    hide Chain, Answers;
    path := loop;
    if n > 0 {
      path := Rounds(fugues, i, loop, n - 1);
      ChainSplits(fugues, Answers(fugues)[i].body, loop, path);
      path := loop + path;
    }
  }

  lemma CyclicNeverGrounds(fugues: seq<Fugue>, n: nat, e: Expr)
    requires Cyclic(fugues, e)
    ensures !Grounded(fugues, n, e)
  {
    hide Chain, Answers, Grounded;
    var path, i, j :| 0 <= i < j < |path| && path[i] == path[j] && Chain(fugues, e, path);
    ChainNumbers(fugues, e, path);
    var p, loop := path[..i + 1], path[i + 1..j + 1];
    assert path == path[..j + 1] + path[j + 1..] && path[..j + 1] == p + loop;
    ChainSplits(fugues, e, path[..j + 1], path[j + 1..]);
    ChainSplits(fugues, e, p, loop);
    var q := Rounds(fugues, path[i], loop, n);
    ChainSplits(fugues, e, p, q);
    if Grounded(fugues, n, e) { ChainsEnd(fugues, n, e, p + q); }
  }

  /** Overloads nest to a bounded depth exactly if none that is reached leads back to itself, and
      then no deeper than there are answers. */
  lemma GroundedExactly(fugues: seq<Fugue>, e: Expr)
    ensures (exists n :: Grounded(fugues, n, e)) <==> !Cyclic(fugues, e)
    ensures Grounded(fugues, |Answers(fugues)|, e) <==> !Cyclic(fugues, e)
  {
    hide Grounded, Chain, Answers;
    var n := |Answers(fugues)|;
    if Cyclic(fugues, e) {
      forall k ensures !Grounded(fugues, k, e) { CyclicNeverGrounds(fugues, k, e); }
    } else {
      if !Grounded(fugues, n, e) {
        var path := LongChain(fugues, n, e);
        ChainNumbers(fugues, e, path);
        DistinctFit(path, Below(n));
      }
      assert Grounded(fugues, n, e);
    }
  }
}
