/** Checking a verse: inference over its body, the rhymes of its sung lines as unification, and
    the deferred predicates last (check.rs). */
module Verses {
  import opened Core
  import opened Unification
  import opened Inference
  import opened Typing
  import opened Principal
  import opened Fixpoints

  /** `rhymes` holds the label of each sung line, and is empty for the plain form. */
  datatype Versus = Versus(name: Sym, mode: Mode, body: Expr, rhymes: seq<char>)

  /** The verse's own type variables: input, state cell, thrown value, cadence. */
  function OwnWorld(fugues: seq<Fugue>): World {
    World(fugues, TVar(0), TVar(1), TVar(2), TVar(3), false, 0)
  }

  const START: State := State([None, None, None, None], [])

  lemma StartReady(fugues: seq<Fugue>)
    ensures Ready(OwnWorld(fugues), [], START)
  {
    assert Ranked(START.st, [0, 0, 0, 0]);
  }

  datatype Spined = Spined(lines: seq<Type>, c: State)

  /** Walk the top-level bind spine, pinning each statement's type to its line. */
  function Spine(w: World, lv: nat, mode: Mode, g: Gamma, body: Expr, lines: seq<Type>, c: State): (r: Checked<Spined>)
    requires Ready(w, g, c)
    requires forall i :: 0 <= i < |lines| ==> InRange(|c.st|, lines[i])
    ensures r.Ok? ==> Grows(c, r.val.c) && lines <= r.val.lines
    ensures r.Ok? ==> forall i :: 0 <= i < |r.val.lines| ==> InRange(|r.val.c.st|, r.val.lines[i])
    decreases body
  {
    hide Infer, InferStmt, Acyclic, Extends;
    if body.Bind? then
      var stmt :- InferStmt(w, lv, mode, g, body.m, c);
      GrowsOn(w, g, c, stmt.c);
      LinesOn(lines, c, stmt.c);
      var r :- Spine(w, lv, mode, g + [Entry(body.x, stmt.bound)], body.k, lines + [stmt.line], stmt.c);
      GrowsTrans(c, stmt.c, r.c);
      Ok(r)
    else
      var (_, c1) :- Infer(w, lv, mode, g, body, c);
      LinesOn(lines, c, c1);
      Ok(Spined(lines, c1))
  }

  lemma LinesOn(lines: seq<Type>, c: State, c': State)
    requires Grows(c, c') && forall i :: 0 <= i < |lines| ==> InRange(|c.st|, lines[i])
    ensures forall i :: 0 <= i < |lines| ==> InRange(|c'.st|, lines[i])
  {
    forall i | 0 <= i < |lines| ensures InRange(|c'.st|, lines[i]) { Wider(|c.st|, |c'.st|, lines[i]); }
  }

  /** Line k carries its statement's type; the couplet from line 7 on, and lines past the
      statements, carry the verse's result. */
  function SungTypes(n: nat, lines: seq<Type>, result: Type): (r: seq<Type>)
    ensures |r| == n
    ensures forall k :: 0 <= k < n ==> r[k] == if k >= 6 || k >= |lines| then result else lines[k]
  {
    seq(n, k requires 0 <= k < n => if k >= 6 || k >= |lines| then result else lines[k])
  }

  /** Unify every pair of lines with one label, from pair (i, j) on. */
  function UnifyRhymes(labels: seq<char>, sung: seq<Type>, i: nat, j: nat, c: State): (r: Checked<State>)
    requires Good(c) && |sung| == |labels| && forall k :: 0 <= k < |sung| ==> InRange(|c.st|, sung[k])
    requires i < j
    ensures r.Ok? ==> Grows(c, r.val) && |r.val.st| == |c.st| && r.val.preds == c.preds
    decreases |labels| - i, |labels| - j
  {
    if i >= |labels| then Ok(c)
    else if j >= |labels| then UnifyRhymes(labels, sung, i + 1, i + 2, c)
    else if labels[i] != labels[j] then UnifyRhymes(labels, sung, i, j + 1, c)
    else
      var c1 :- Equate(c, sung[i], sung[j]);
      var c2 :- UnifyRhymes(labels, sung, i, j + 1, c1);
      GrowsTrans(c, c1, c2);
      Ok(c2)
  }

  /** A predicate on an unresolved variable is let pass. */
  predicate PredPasses(st: Subst, p: Pred)
    requires Acyclic(st) && InRange(|st|, p.ty)
  {
    var t := Walk(st, p.ty);
    t.TVar? || t.Hint() in p.allowed
  }

  function CheckPreds(c: State, k: nat): (r: Checked<State>)
    requires Good(c) && k <= |c.preds|
    ensures r.Ok? <==> forall i :: k <= i < |c.preds| ==> PredPasses(c.st, c.preds[i])
    ensures r.Ok? ==> r.val == c
    decreases |c.preds| - k
  {
    if k == |c.preds| then Ok(c)
    else if PredPasses(c.st, c.preds[k]) then CheckPreds(c, k + 1)
    else Err(Types(c.preds[k].want, Walk(c.st, c.preds[k].ty).Hint()))
  }

  /** A refusal for a predicate is for the first that does not pass: what it wants, and the type it got. */
  lemma {:induction false} FirstPredClashes(c: State, k: nat)
    requires Good(c) && k <= |c.preds| && CheckPreds(c, k).Err?
    ensures exists i: nat :: k <= i < |c.preds| && !PredPasses(c.st, c.preds[i])
              && (forall j :: k <= j < i ==> PredPasses(c.st, c.preds[j]))
              && CheckPreds(c, k).clash == Types(c.preds[i].want, Walk(c.st, c.preds[i].ty).Hint())
    decreases |c.preds| - k
  {
    hide PredPasses, Walk, Acyclic;
    if PredPasses(c.st, c.preds[k]) { FirstPredClashes(c, k + 1); }
  }

  function CheckVersus(fugues: seq<Fugue>, lv: nat, v: Versus): (r: Checked<State>)
    ensures r.Ok? ==> Good(r.val)
  {
    hide Infer, Acyclic, Extends;
    var w := OwnWorld(fugues);
    StartReady(fugues);
    if v.rhymes == [] then
      var (_, c) :- Infer(w, lv, v.mode, [], v.body, START);
      CheckPreds(c, 0)
    else
      var sp :- Spine(w, lv, v.mode, [], v.body, [], START);
      Widens(START, sp.c, w.result);
      var c :- UnifyRhymes(v.rhymes, SungTypes(|v.rhymes|, sp.lines, w.result), 0, 1, sp.c);
      CheckPreds(c, 0)
  }

  // --- the spine walk is inference ---

  /** Pinning types to lines changes nothing: the walk ends in the state inference ends in, or
      fails as it fails. */
  lemma {:induction false} SpineIsInference(w: World, lv: nat, mode: Mode, g: Gamma, body: Expr,
          lines: seq<Type>, c: State)
    requires Ready(w, g, c)
    requires forall i :: 0 <= i < |lines| ==> InRange(|c.st|, lines[i])
    ensures var s, r := Spine(w, lv, mode, g, body, lines, c), Infer(w, lv, mode, g, body, c);
            s.Ok? == r.Ok? && (if r.Ok? then s.val.c == r.val.1 else s.clash == r.clash)
    decreases body
  {
    hide InferStmt, Acyclic, Extends, InferFunctional, InferOp;
    if body.Bind? {
      var stmt := InferStmt(w, lv, mode, g, body.m, c);
      if stmt.Ok? {
        GrowsOn(w, g, c, stmt.val.c);
        LinesOn(lines, c, stmt.val.c);
        SpineIsInference(w, lv, mode, g + [Entry(body.x, stmt.val.bound)], body.k, lines + [stmt.val.line], stmt.val.c);
      }
    }
  }

  // --- what rhymes do ---

  lemma {:induction false} WalkStays(st: Subst, st': Subst, t: Type)
    requires Acyclic(st) && Acyclic(st') && Extends(st, st') && InRange(|st|, t)
    ensures InRange(|st'|, t) && (!Walk(st, t).TVar? ==> Walk(st', t) == Walk(st, t))
    decreases Height(RankOf(st), t)
  {
    Wider(|st|, |st'|, t);
    if t.TVar? && st[t.i].Some? {
      assert st'[t.i] == st[t.i];
      WalkStays(st, st', st[t.i].value);
    }
  }

  /** Rhymes only narrow: a sung verse that is accepted is accepted with its rhymes erased. */
  lemma RhymesOnlyNarrow(fugues: seq<Fugue>, lv: nat, v: Versus)
    ensures CheckVersus(fugues, lv, v).Ok? ==> CheckVersus(fugues, lv, v.(rhymes := [])).Ok?
  {
    hide Infer, Walk, Acyclic;
    var w := OwnWorld(fugues);
    if v.rhymes != [] && CheckVersus(fugues, lv, v).Ok? {
      StartReady(fugues);
      SpineIsInference(w, lv, v.mode, [], v.body, [], START);
      var sp := Spine(w, lv, v.mode, [], v.body, [], START).val;
      Widens(START, sp.c, w.result);
      var c := UnifyRhymes(v.rhymes, SungTypes(|v.rhymes|, sp.lines, w.result), 0, 1, sp.c).val;
      forall i | 0 <= i < |sp.c.preds| ensures PredPasses(sp.c.st, sp.c.preds[i]) {
        assert PredPasses(c.st, c.preds[i]);
        WalkStays(sp.c.st, c.st, sp.c.preds[i].ty);
      }
    }
  }

  /** The lines `a < b` share a label, and pair (a, b) is not before pair (i, j). */
  predicate Pending(labels: seq<char>, a: nat, b: nat, i: nat, j: nat) {
    a < b < |labels| && labels[a] == labels[b] && (a > i || (a == i && b >= j))
  }

  lemma {:induction false} RhymesEquate(labels: seq<char>, sung: seq<Type>, i: nat, j: nat, c: State, a: nat,
          b: nat, th: seq<Type>)
    requires Good(c) && |sung| == |labels| && forall k :: 0 <= k < |sung| ==> InRange(|c.st|, sung[k])
    requires i < j && Pending(labels, a, b, i, j)
    requires UnifyRhymes(labels, sung, i, j, c).Ok? && Solves(th, UnifyRhymes(labels, sung, i, j, c).val.st)
    ensures Sub(th, sung[a]) == Sub(th, sung[b])
    decreases |labels| - i, |labels| - j
  {
    hide Unify, Acyclic;
    if j >= |labels| {
      RhymesEquate(labels, sung, i + 1, i + 2, c, a, b, th);
    } else if labels[i] != labels[j] {
      RhymesEquate(labels, sung, i, j + 1, c, a, b, th);
    } else {
      var c1 := Equate(c, sung[i], sung[j]).val;
      if a == i && b == j {
        UnifyIsExact(c.st, sung[i], sung[j], th);
      } else {
        RhymesEquate(labels, sung, i, j + 1, c1, a, b, th);
      }
    }
  }

  /** All lines with one label have one type under `th`. */
  predicate Rhymed(labels: seq<char>, sung: seq<Type>, th: seq<Type>)
    requires |sung| == |labels|
  {
    forall a, b :: 0 <= a < b < |labels| && labels[a] == labels[b] ==> Sub(th, sung[a]) == Sub(th, sung[b])
  }

  /** Rhymes that can be closed do unify. */
  lemma {:induction false} RhymesSucceed(labels: seq<char>, sung: seq<Type>, i: nat, j: nat, c: State, th: seq<Type>)
    requires Good(c) && |sung| == |labels| && forall k :: 0 <= k < |sung| ==> InRange(|c.st|, sung[k])
    requires i < j && |th| == |c.st| && Closes(th, c) && Rhymed(labels, sung, th)
    ensures UnifyRhymes(labels, sung, i, j, c).Ok? && Closes(th, UnifyRhymes(labels, sung, i, j, c).val)
    decreases |labels| - i, |labels| - j
  {
    hide Equate, Acyclic, Solves, PredsHold;
    if i < |labels| {
      if j >= |labels| {
        RhymesSucceed(labels, sung, i + 1, i + 2, c, th);
      } else if labels[i] != labels[j] {
        RhymesSucceed(labels, sung, i, j + 1, c, th);
      } else {
        EquateCloses(th, c, sung[i], sung[j]);
        RhymesSucceed(labels, sung, i, j + 1, Equate(c, sung[i], sung[j]).val, th);
      }
    }
  }

  /** The types of the sung lines of a verse. */
  function LineTypes(fugues: seq<Fugue>, lv: nat, v: Versus): seq<Type>
    requires Ready(OwnWorld(fugues), [], START)
    requires Spine(OwnWorld(fugues), lv, v.mode, [], v.body, [], START).Ok?
  {
    SungTypes(|v.rhymes|, Spine(OwnWorld(fugues), lv, v.mode, [], v.body, [], START).val.lines, TVar(3))
  }

  /** On acceptance all lines that share a label resolve to one type. */
  lemma RhymesResolveAlike(fugues: seq<Fugue>, lv: nat, v: Versus, a: nat, b: nat)
    requires CheckVersus(fugues, lv, v).Ok? && a < b < |v.rhymes| && v.rhymes[a] == v.rhymes[b]
    ensures Ready(OwnWorld(fugues), [], START) && Spine(OwnWorld(fugues), lv, v.mode, [], v.body, [], START).Ok?
    ensures var st, sung := CheckVersus(fugues, lv, v).val.st, LineTypes(fugues, lv, v);
            && InRange(|st|, sung[a]) && InRange(|st|, sung[b])
            && Apply(st, sung[a]) == Apply(st, sung[b])
  {
    hide Infer, Walk, Acyclic, Apply, PredPasses;
    var w := OwnWorld(fugues);
    StartReady(fugues);
    var sp := Spine(w, lv, v.mode, [], v.body, [], START).val;
    Widens(START, sp.c, w.result);
    var sung := LineTypes(fugues, lv, v);
    var c := UnifyRhymes(v.rhymes, sung, 0, 1, sp.c).val;
    LinesOn(sung, sp.c, c);
    FullSolves(c.st);
    RhymesEquate(v.rhymes, sung, 0, 1, sp.c, a, b, Full(c.st));
    FullResolves(c.st, sung[a]);
    FullResolves(c.st, sung[b]);
  }

  // --- what a line's type is the type of ---

  /** The statements of a bind spine and their binders. */
  function Statements(body: Expr): seq<Expr> {
    if body.Bind? then [body.m] + Statements(body.k) else []
  }

  function Binders(body: Expr): (r: seq<Sym>)
    ensures |r| == |Statements(body)|
  {
    if body.Bind? then [body.x] + Binders(body.k) else []
  }

  /** What a line sings about: of a put or a send what is put or sent, else the statement itself. */
  function SungPart(m: Expr): Expr {
    match m
    case Pone(e) => e
    case Mitte(e) => e
    case _ => m
  }

  /** The part has the type in the scope `g` makes with the binders of the lines before. */
  ghost predicate SungAt(w: World, lv: nat, mode: Mode, g: Gamma, body: Expr, k: nat, t: Type)
    requires k < |Statements(body)|
  {
    exists h: Gamma :: |h| == k && (forall i :: 0 <= i < k ==> h[i].x == Binders(body)[i])
                       && HasType(w, lv, mode, g + h, SungPart(Statements(body)[k]), t)
  }

  lemma StmtSings(th: seq<Type>, w: World, lv: nat, mode: Mode, g: Gamma, m: Expr, c: State)
    requires Ready(w, g, c) && InferStmt(w, lv, mode, g, m, c).Ok? && Closes(th, InferStmt(w, lv, mode, g, m, c).val.c)
    ensures HasType(SubW(th, w), lv, mode, SubG(th, g), SungPart(m), Sub(th, InferStmt(w, lv, mode, g, m, c).val.line))
  {
    hide Infer, HasType, Acyclic, GammaIn, Extends, Equate, Closes;
    var e := SungPart(m);
    var r := Infer(w, lv, mode, g, e, c).val;
    var stmt := InferStmt(w, lv, mode, g, m, c).val;
    assert stmt.line == r.0;
    LineGrows(w, lv, mode, g, m, c);
    ClosesBefore(th, r.1, stmt.c);
    InferSound(th, w, lv, mode, g, e, c);
  }

  lemma LineGrows(w: World, lv: nat, mode: Mode, g: Gamma, m: Expr, c: State)
    requires Ready(w, g, c) && InferStmt(w, lv, mode, g, m, c).Ok?
    ensures var r := Infer(w, lv, mode, g, SungPart(m), c); r.Ok? && Grows(r.val.1, InferStmt(w, lv, mode, g, m, c).val.c)
  {
    hide Infer, Acyclic, GammaIn;
  }

  lemma {:induction false} SpineSings(th: seq<Type>, w: World, lv: nat, mode: Mode, g: Gamma, body: Expr,
          lines: seq<Type>, c: State, k: nat)
    requires Ready(w, g, c) && (forall i :: 0 <= i < |lines| ==> InRange(|c.st|, lines[i]))
    requires var r := Spine(w, lv, mode, g, body, lines, c); r.Ok? && Closes(th, r.val.c)
    ensures var out := Spine(w, lv, mode, g, body, lines, c).val.lines;
            && |out| == |lines| + |Statements(body)|
            && (k < |Statements(body)| ==> SungAt(SubW(th, w), lv, mode, SubG(th, g), body, k, Sub(th, out[|lines| + k])))
    decreases body
  {
    hide Infer, InferStmt, Acyclic, Extends, HasType, Closes, SungAt;
    if body.Bind? {
      var stmt := InferStmt(w, lv, mode, g, body.m, c).val;
      GrowsOn(w, g, c, stmt.c);
      LinesOn(lines, c, stmt.c);
      var g', lines' := g + [Entry(body.x, stmt.bound)], lines + [stmt.line];
      var r := Spine(w, lv, mode, g', body.k, lines', stmt.c).val;
      SpineSings(th, w, lv, mode, g', body.k, lines', stmt.c, if k > 0 then k - 1 else 0);
      if k == 0 {
        ClosesBefore(th, stmt.c, r.c);
        StmtSings(th, w, lv, mode, g, body.m, c);
        assert SubG(th, g) + [] == SubG(th, g);
        assert r.lines[|lines|] == lines'[|lines|] == stmt.line;
        Heard(SubW(th, w), lv, mode, SubG(th, g), body, 0, Sub(th, stmt.line), []);
      } else if k < |Statements(body)| {
        SubSnoc(th, g, body.x, stmt.bound);
        var n := Entry(body.x, Sub(th, stmt.bound));
        var t := Sub(th, r.lines[|lines'| + (k - 1)]);
        LaterLine(SubW(th, w), lv, mode, SubG(th, g), n, body, k, t);
      }
    }
  }

  lemma Heard(w: World, lv: nat, mode: Mode, g: Gamma, body: Expr, k: nat, t: Type, h: Gamma)
    requires k < |Statements(body)| && |h| == k && forall i :: 0 <= i < k ==> h[i].x == Binders(body)[i]
    requires HasType(w, lv, mode, g + h, SungPart(Statements(body)[k]), t)
    ensures SungAt(w, lv, mode, g, body, k, t)
  {
    hide HasType;
  }

  lemma LaterLine(w: World, lv: nat, mode: Mode, g: Gamma, n: Entry, body: Expr, k: nat, t: Type)
    requires body.Bind? && 0 < k < |Statements(body)| && n.x == body.x
    requires SungAt(w, lv, mode, g + [n], body.k, k - 1, t)
    ensures SungAt(w, lv, mode, g, body, k, t)
  {
    hide HasType;
    var h: Gamma :| |h| == k - 1 && (forall i :: 0 <= i < k - 1 ==> h[i].x == Binders(body.k)[i])
                    && HasType(w, lv, mode, g + [n] + h, SungPart(Statements(body.k)[k - 1]), t);
    assert g + ([n] + h) == g + [n] + h;
    Heard(w, lv, mode, g, body, k, t, [n] + h);
  }

  /** On acceptance line `k`, before the couplet, carries the type of what statement `k` sings
      about, in the scope the lines before it make; the couplet carries the verse's result. */
  lemma LinesAreTyped(fugues: seq<Fugue>, lv: nat, v: Versus, th: seq<Type>, k: nat)
    requires CheckVersus(fugues, lv, v).Ok? && Closes(th, CheckVersus(fugues, lv, v).val) && k < |v.rhymes|
    ensures Ready(OwnWorld(fugues), [], START) && Spine(OwnWorld(fugues), lv, v.mode, [], v.body, [], START).Ok?
    ensures var line := Sub(th, LineTypes(fugues, lv, v)[k]);
            if k < 6 && k < |Statements(v.body)| then SungAt(SubW(th, OwnWorld(fugues)), lv, v.mode, [], v.body, k, line)
            else line == SubW(th, OwnWorld(fugues)).result
  {
    hide Infer, Walk, Acyclic, PredPasses, HasType, Closes, SungAt;
    var w := OwnWorld(fugues);
    StartReady(fugues);
    var sp := Spine(w, lv, v.mode, [], v.body, [], START).val;
    Widens(START, sp.c, w.result);
    ClosesBefore(th, sp.c, CheckVersus(fugues, lv, v).val);
    SpineSings(th, w, lv, v.mode, [], v.body, [], START, k);
    assert SubG(th, []) == [];
  }

  // --- acceptance is typability ---

  lemma ClosedPredsPass(th: seq<Type>, c: State)
    requires Good(c) && |th| == |c.st| && Closes(th, c)
    ensures CheckPreds(c, 0) == Ok(c)
  {
    forall i | 0 <= i < |c.preds| ensures PredPasses(c.st, c.preds[i]) {
      SolvesWalk(th, c.st, c.preds[i].ty);
    }
  }

  /** The walk over a verse's body, sung or plain, in one shape. */
  lemma AcceptedShape(fugues: seq<Fugue>, lv: nat, v: Versus)
    requires CheckVersus(fugues, lv, v).Ok?
    ensures Ready(OwnWorld(fugues), [], START)
    ensures var r := Infer(OwnWorld(fugues), lv, v.mode, [], v.body, START);
            r.Ok? && Grows(r.val.1, CheckVersus(fugues, lv, v).val)
  {
    hide Infer, Acyclic, Walk, PredPasses;
    StartReady(fugues);
    var w := OwnWorld(fugues);
    if v.rhymes != [] {
      SpineIsInference(w, lv, v.mode, [], v.body, [], START);
      var sp := Spine(w, lv, v.mode, [], v.body, [], START).val;
      Widens(START, sp.c, w.result);
    }
  }

  /** Every closing of an accepted verse's final state is a typing of its body, and one that
      gives rhyming lines one type. */
  lemma AcceptedIsTyped(fugues: seq<Fugue>, lv: nat, v: Versus, th: seq<Type>)
    requires CheckVersus(fugues, lv, v).Ok? && Closes(th, CheckVersus(fugues, lv, v).val)
    ensures exists tau :: HasType(SubW(th, OwnWorld(fugues)), lv, v.mode, [], v.body, tau)
  {
    hide Infer, Acyclic, Walk, HasType, CheckVersus, Closes, OwnWorld;
    AcceptedShape(fugues, lv, v);
    var (t, c) := Infer(OwnWorld(fugues), lv, v.mode, [], v.body, START).val;
    ClosesBefore(th, c, CheckVersus(fugues, lv, v).val);
    InferSound(th, OwnWorld(fugues), lv, v.mode, [], v.body, START);
    assert SubG(th, []) == [];
  }

  /** A body that has a typing is accepted in the plain form, in a state that closes at it. */
  lemma TypableIsAccepted(fugues: seq<Fugue>, lv: nat, v: Versus, w: World, tau: Type) returns (th: seq<Type>)
    requires v.rhymes == [] && w.fugues == fugues && HasType(w, lv, v.mode, [], v.body, tau)
    ensures CheckVersus(fugues, lv, v).Ok?
    ensures var c := CheckVersus(fugues, lv, v).val; |th| == |c.st| && Closes(th, c) && SubW(th, OwnWorld(fugues)) == Untied(w)
  {
    hide Infer, Acyclic, HasType, Solves, PredsHold;
    StartReady(fugues);
    var th0 := [w.arg, w.state, w.throw, w.result];
    Retied(w, Untied(w), lv, v.mode, [], v.body, tau);
    assert SubW(th0, OwnWorld(fugues)) == Untied(w) && SubG(th0, []) == [];
    StartCloses(th0);
    th := InferComplete(th0, OwnWorld(fugues), lv, v.mode, [], v.body, tau, START);
    var (t, c) := Infer(OwnWorld(fugues), lv, v.mode, [], v.body, START).val;
    SubLonger(th0, th, OwnWorld(fugues), []);
    ClosedPredsPass(th, c);
  }

  lemma StartCloses(th: seq<Type>)
    requires |th| == 4
    ensures Closes(th, START)
  {
  }

  /** A sung verse whose body has a typing that gives rhyming lines one type is accepted. */
  lemma RhymedIsAccepted(fugues: seq<Fugue>, lv: nat, v: Versus, th: seq<Type>)
    requires v.rhymes != [] && CheckVersus(fugues, lv, v.(rhymes := [])).Ok?
    requires var c := CheckVersus(fugues, lv, v.(rhymes := [])).val; |th| == |c.st| && Closes(th, c)
    requires Ready(OwnWorld(fugues), [], START) && Spine(OwnWorld(fugues), lv, v.mode, [], v.body, [], START).Ok?
    requires Rhymed(v.rhymes, LineTypes(fugues, lv, v), th)
    ensures CheckVersus(fugues, lv, v).Ok? && Closes(th, CheckVersus(fugues, lv, v).val)
  {
    hide Infer, Acyclic, Walk, PredPasses, Solves, PredsHold;
    var w := OwnWorld(fugues);
    SpineIsInference(w, lv, v.mode, [], v.body, [], START);
    var sp := Spine(w, lv, v.mode, [], v.body, [], START).val;
    Widens(START, sp.c, w.result);
    RhymesSucceed(v.rhymes, LineTypes(fugues, lv, v), 0, 1, sp.c, th);
    ClosedPredsPass(th, UnifyRhymes(v.rhymes, LineTypes(fugues, lv, v), 0, 1, sp.c).val);
  }
}
