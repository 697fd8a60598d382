/** The checker as the source writes it: a substitution vector, a predicate list and a scope
    that inference overwrites, refined to the functions of `Inference` and `Verses`. */
module Checker {
  import opened Core
  import opened Unification
  import opened Inference
  import opened Verses
  import B = Builtins

  /** A method's answer and final state are those of the specification. */
  ghost predicate Did(r: Checked<Type>, spec: Checked<Typed>, c: State) {
    if spec.Ok? then r == Ok(spec.val.0) && c == spec.val.1 else r.Err? && r.clash == spec.clash
  }

  ghost predicate DidUnify(clash: Option<Clash>, u: Unified, st: Subst) {
    if u.Solved? then clash.None? && st == u.st else clash == Some(u.clash)
  }

  ghost predicate DidAll(clash: Option<Clash>, spec: Checked<State>, c: State) {
    if spec.Ok? then clash.None? && c == spec.val else clash == Some(spec.clash)
  }

  /** One turn of the spine walk. */
  lemma SpineTurns(w: World, lv: nat, mode: Mode, g: Gamma, body: Expr, lines: seq<Type>, c: State)
    requires Ready(w, g, c) && body.Bind? && forall i :: 0 <= i < |lines| ==> InRange(|c.st|, lines[i])
    ensures var stmt := InferStmt(w, lv, mode, g, body.m, c);
            if stmt.Err? then Spine(w, lv, mode, g, body, lines, c) == Err(stmt.clash)
            else
              && var g' := g + [Entry(body.x, stmt.val.bound)];
              && Ready(w, g', stmt.val.c)
              && (forall i :: 0 <= i < |lines| + 1 ==> InRange(|stmt.val.c.st|, (lines + [stmt.val.line])[i]))
              && Spine(w, lv, mode, g, body, lines, c) == Spine(w, lv, mode, g', body.k, lines + [stmt.val.line], stmt.val.c)
  {
    hide Acyclic, Extends, Infer, InferStmt;
    var stmt := InferStmt(w, lv, mode, g, body.m, c);
    if stmt.Ok? {
      GrowsOn(w, g, c, stmt.val.c);
      LinesOn(lines, c, stmt.val.c);
    }
  }

  class Checker {
    var subst: Subst
    var preds: seq<Pred>
    var gamma: Gamma
    const w: World

    constructor (fugues: seq<Fugue>)
      ensures Valid() && View() == START && gamma == [] && w == OwnWorld(fugues)
    {
      subst, preds, gamma := [None, None, None, None], [], [];
      w := OwnWorld(fugues);
      new;
      StartReady(fugues);
    }

    function View(): State
      reads this`subst, this`preds
    {
      State(subst, preds)
    }

    ghost predicate Valid()
      reads this
    {
      Ready(w, gamma, View()) && !w.tied
    }

    method NewVar() returns (t: Type)
      requires Good(View())
      modifies this`subst
      ensures (t, View()) == Fresh(old(View()))
    {
      subst := subst + [None];
      t := TVar(|subst| - 1);
    }

    /** `Walk`, hop by hop along the chain of variables. */
    method Shallow(t: Type) returns (r: Type)
      requires Acyclic(subst) && InRange(|subst|, t)
      ensures r == Walk(subst, t)
    {
      r := t;
      while r.TVar? && subst[r.i].Some?
        invariant InRange(|subst|, r) && Walk(subst, r) == Walk(subst, t)
        decreases Height(RankOf(subst), r)
      {
        r := subst[r.i].value;
      }
    }

    method UnifyTypes(a: Type, b: Type) returns (clash: Option<Clash>)
      requires Acyclic(subst) && InRange(|subst|, a) && InRange(|subst|, b)
      modifies this`subst
      ensures DidUnify(clash, Unify(old(subst), a, b), subst)
      decreases Unbounds(subst), Size(Apply(subst, a))
    {
      hide Apply, Occurs, Height, Size, Unbounds, Vars;
      var x := Shallow(a);
      var y := Shallow(b);
      PartsShrink(subst, a);
      if x.TVar? && x == y {
        clash := None;
      } else if x.TVar? || y.TVar? {
        var i, t := if x.TVar? then x.i else y.i, if x.TVar? then y else x;
        if Occurs(subst, i, t) { return Some(Infinite); }
        subst := subst[i := Some(t)];
        clash := None;
      } else if x.Fun? && y.Fun? {
        clash := UnifyTypes(x.a, y.a);
        if clash.None? {
          clash := UnifyTypes(x.r, y.r);
        }
      } else {
        clash := if x == y then None else Some(Types(x.Hint(), y.Hint()));
      }
    }

    method EquateTypes(a: Type, b: Type) returns (clash: Option<Clash>)
      requires Good(View()) && InRange(|subst|, a) && InRange(|subst|, b)
      modifies this`subst
      ensures DidAll(clash, Equate(old(View()), a, b), View())
    {
      hide Unify;
      clash := UnifyTypes(a, b);
    }

    method Lookup(x: Sym) returns (r: Checked<Type>)
      requires Valid()
      modifies this`subst, this`preds
      ensures Did(r, LookupType(w, gamma, x, old(View())), View())
    {
      hide Acyclic;
      var found := FindEntry(gamma, x);
      if found.Some? { return Ok(found.value); }
      var p := B.PrimOf(x);
      if p.None? {
        var pedal := PedalType(w.fugues, x);
        return if pedal.Some? then Ok(pedal.value) else Err(Unbound(x));
      }
      var a := TUnit;
      if Poly(p.value) {
        a := NewVar();
        if p.value.Corpus? {
          preds := preds + [Pred(a, GENUS_OR_STR, GenusH)];
        }
      }
      r := Ok(SigOf(p.value, a));
    }

    method ExpectType(lv: nat, mode: Mode, e: Expr, want: Type) returns (r: Checked<Type>)
      requires Valid() && InRange(|subst|, want)
      modifies this
      ensures Did(r, Expect(w, lv, mode, old(gamma), e, want, old(View())), View())
      ensures r.Ok? ==> gamma == old(gamma)
      decreases lv, 0, e, 3
    {
      hide Acyclic, GammaIn, WorldIn, Extends, InRange, Infer, Equate;
      ghost var c := View();
      r := InferExpr(lv, mode, e);
      if r.Ok? {
        Widens(c, View(), want);
        var clash := EquateTypes(r.val, want);
        if clash.Some? { r := Err(clash.value); }
      }
    }

    method AgreeTypes(lv: nat, mode: Mode, e: Expr, first: Type) returns (clash: Option<Clash>)
      requires Valid() && InRange(|subst|, first)
      modifies this
      ensures DidAll(clash, Agree(w, lv, mode, old(gamma), e, first, old(View())), View())
      ensures clash.None? ==> gamma == old(gamma)
      decreases lv, 0, e, 3
    {
      hide Acyclic, GammaIn, WorldIn, Extends, InRange, Infer, Equate;
      ghost var c := View();
      var r := InferExpr(lv, mode, e);
      if r.Err? { return Some(r.clash); }
      Widens(c, View(), first);
      clash := EquateTypes(first, r.val);
    }

    /** Infer under one more binding, and take it off again. */
    method InferUnder(lv: nat, mode: Mode, x: Sym, t: Type, e: Expr) returns (r: Checked<Type>)
      requires Valid() && InRange(|subst|, t)
      modifies this
      ensures Did(r, Infer(w, lv, mode, old(gamma) + [Entry(x, t)], e, old(View())), View())
      ensures r.Ok? ==> gamma == old(gamma)
      decreases lv, 0, e, 3
    {
      hide Acyclic, WorldIn, Extends, InRange, Infer;
      gamma := gamma + [Entry(x, t)];
      r := InferExpr(lv, mode, e);
      if r.Ok? {
        gamma := gamma[..|gamma| - 1];
      }
    }

    method InferExpr(lv: nat, mode: Mode, e: Expr) returns (r: Checked<Type>)
      requires Valid()
      modifies this
      ensures Did(r, Infer(w, lv, mode, old(gamma), e, old(View())), View())
      ensures r.Ok? ==> gamma == old(gamma)
      decreases lv, 0, e, 2
    {
      hide Acyclic, GammaIn, WorldIn, Extends, InRange, InferFunctional, InferSequential, InferOp, LookupType;
      match e
      case Lit(v) => r := Ok(TypeOfValue(v));
      case Var(x) => r := Lookup(x);
      case Arg => r := Ok(w.arg);
      case Ask(x) =>
        var pedal := PedalType(w.fugues, x);
        r := if pedal.Some? then Ok(pedal.value) else Err(Unbound(x));
      case Pure(_, m) => r := InferExpr(lv, mode, m);
      case Lift(m) =>
        if !mode.Allows(OpLift) { return Err(ModeClash(mode, OpLift)); }
        r := InferExpr(lv, Base(mode), m);
      case Lam(_, _) | App(_, _) | If(_, _, _) | Fix(_) => r := InferFunctionalExpr(lv, mode, e);
      case Return(_, _) | Bind(_, _, _, _) | Resolve(_, _) => r := InferSequentialExpr(lv, mode, e);
      case _ => r := InferOpExpr(lv, mode, e);
    }

    method InferFunctionalExpr(lv: nat, mode: Mode, e: Expr) returns (r: Checked<Type>)
      requires Valid() && (e.Lam? || e.App? || e.If? || e.Fix?)
      modifies this
      ensures Did(r, InferFunctional(w, lv, mode, old(gamma), e, old(View())), View())
      ensures r.Ok? ==> gamma == old(gamma)
      decreases lv, 0, e, 0
    {
      hide Acyclic, WorldIn, Extends, Unify, Infer, Expect, Agree;
      ghost var c, g := View(), gamma;
      match e
      case Lam(x, body) =>
        var a := NewVar();
        GrowsOn(w, g, c, View());
        ghost var c1 := View();
        r := InferUnder(lv, mode, x, a, body);
        if r.Ok? {
          r := Ok(Fun(a, r.val));
        }
      case App(f, a) => r := InferApp(lv, mode, f, a);
      case If(b, p, q) => r := InferIf(lv, mode, b, p, q);
      case Fix(f) =>
        r := InferExpr(lv, mode, f);
        if r.Err? { return; }
        ghost var c1 := View();
        var a := NewVar();
        Widens(c1, View(), r.val);
        var clash := EquateTypes(r.val, Fun(a, a));
        r := if clash.Some? then Err(clash.value) else Ok(a);
    }

    method InferApp(lv: nat, mode: Mode, f: Expr, a: Expr) returns (r: Checked<Type>)
      requires Valid()
      modifies this
      ensures Did(r, InferFunctional(w, lv, mode, old(gamma), App(f, a), old(View())), View())
      ensures r.Ok? ==> gamma == old(gamma)
      decreases lv, 0, App(f, a), 0, 0
    {
      hide Acyclic, WorldIn, GammaIn, Extends, Unify, Infer;
      ghost var c, g := View(), gamma;
      r := InferExpr(lv, mode, f);
      if r.Err? { return; }
      var tf := r.val;
      ghost var c1 := View();
      GrowsOn(w, g, c, c1);
      r := InferExpr(lv, mode, a);
      if r.Err? { return; }
      ghost var c2 := View();
      var t := NewVar();
      Widens(c1, c2, tf);
      Widens(c2, View(), tf);
      Widens(c2, View(), r.val);
      var clash := EquateTypes(tf, Fun(r.val, t));
      r := if clash.Some? then Err(clash.value) else Ok(t);
    }

    method InferIf(lv: nat, mode: Mode, b: Expr, p: Expr, q: Expr) returns (r: Checked<Type>)
      requires Valid()
      modifies this
      ensures Did(r, InferFunctional(w, lv, mode, old(gamma), If(b, p, q), old(View())), View())
      ensures r.Ok? ==> gamma == old(gamma)
      decreases lv, 0, If(b, p, q), 0, 0
    {
      hide Acyclic, WorldIn, GammaIn, Extends, Unify, Infer, Expect, Agree;
      ghost var c, g := View(), gamma;
      r := ExpectType(lv, mode, b, TBool);
      if r.Err? { return; }
      ghost var c1 := View();
      GrowsOn(w, g, c, c1);
      r := InferExpr(lv, mode, p);
      if r.Err? { return; }
      GrowsOn(w, g, c1, View());
      var clash := AgreeTypes(lv, mode, q, r.val);
      if clash.Some? { r := Err(clash.value); }
    }

    method InferSequentialExpr(lv: nat, mode: Mode, e: Expr) returns (r: Checked<Type>)
      requires Valid() && (e.Return? || e.Bind? || e.Resolve?)
      modifies this
      ensures Did(r, InferSequential(w, lv, mode, old(gamma), e, old(View())), View())
      ensures r.Ok? ==> gamma == old(gamma)
      decreases lv, 0, e, 0
    {
      hide Acyclic, Extends, Unify, Infer, Expect, InferStmt, InferAnswers;
      ghost var c, g := View(), gamma;
      match e
      case Return(_, m) =>
        r := ExpectType(lv, mode, m, w.result);
        if r.Ok? {
          var t := NewVar();
          r := Ok(t);
        }
      case Bind(_, m, x, k) =>
        var stmt := InferStatement(lv, mode, m);
        if stmt.Err? { return Err(stmt.clash); }
        GrowsOn(w, g, c, View());
        r := InferUnder(lv, mode, x, stmt.val.1, k);
      case Resolve(x, n) =>
        r := ExpectType(lv, mode, n, TGenus);
        if r.Err? { return; }
        ghost var c1 := View();
        var t := NewVar();
        GrowsTrans(c, c1, View());
        GrowsOn(w, g, c, View());
        var os := Answers(w.fugues);
        if !Mentions(os, x) { return Ok(t); }
        if lv == 0 { return Err(Bottomless); }
        var clash := InferAllAnswers(lv - 1, mode, os, x, t);
        r := if clash.Some? then Err(clash.value) else Ok(t);
    }

    /** A statement of the spine: the type its sung line carries and the type it binds. */
    method InferStatement(lv: nat, mode: Mode, m: Expr) returns (r: Checked<(Type, Type)>)
      requires Valid()
      modifies this
      ensures var spec := InferStmt(w, lv, mode, old(gamma), m, old(View()));
              if spec.Ok? then r == Ok((spec.val.line, spec.val.bound)) && View() == spec.val.c
              else r.Err? && r.clash == spec.clash
      ensures r.Ok? ==> gamma == old(gamma)
      decreases lv, 0, m, 4
    {
      hide Extends, GammaIn, Infer, Expect, Good, InRange;
      match m
      case Pone(e) =>
        if !mode.Allows(OpPone) { return Err(ModeClash(mode, OpPone)); }
        assert InRange(|subst|, w.state);
        var t := ExpectType(lv, mode, e, w.state);
        r := if t.Ok? then Ok((t.val, TUnit)) else Err(t.clash);
      case Mitte(e) => r := InferMitte(lv, mode, e);
      case _ =>
        var t := InferExpr(lv, mode, m);
        r := if t.Ok? then Ok((t.val, t.val)) else Err(t.clash);
    }

    method InferMitte(lv: nat, mode: Mode, e: Expr) returns (r: Checked<(Type, Type)>)
      requires Valid()
      modifies this
      ensures var spec := InferStmt(w, lv, mode, old(gamma), Mitte(e), old(View()));
              if spec.Ok? then r == Ok((spec.val.line, spec.val.bound)) && View() == spec.val.c
              else r.Err? && r.clash == spec.clash
      ensures r.Ok? ==> gamma == old(gamma)
      decreases lv, 0, e, 3
    {
      hide Extends, GammaIn, Infer, Good, InRange;
      if !mode.Allows(OpMitte) { return Err(ModeClash(mode, OpMitte)); }
      var t := InferExpr(lv, mode, e);
      if t.Err? { return Err(t.clash); }
      preds := preds + [Pred(t.val, CMD_OR_PLAN, CmdH)];
      r := Ok((t.val, TUnit));
    }

    method InferAllAnswers(lv: nat, mode: Mode, os: seq<Overload>, x: Sym, want: Type) returns (clash: Option<Clash>)
      requires Valid() && InRange(|subst|, want)
      modifies this
      ensures DidAll(clash, InferAnswers(w, lv, mode, old(gamma), os, x, want, old(View())), View())
      ensures clash.None? ==> gamma == old(gamma)
      decreases lv, 1
    {
      hide Acyclic, GammaIn, WorldIn, Extends, InRange, Expect;
      var i := 0;
      ghost var g := gamma;
      ghost var spec := InferAnswers(w, lv, mode, gamma, os, x, want, View());
      assert os[0..] == os;
      while i < |os|
        invariant 0 <= i <= |os| && Valid() && InRange(|subst|, want) && gamma == g
        invariant InferAnswers(w, lv, mode, gamma, os[i..], x, want, View()) == spec
      {
        ghost var c := View();
        assert os[i..][1..] == os[i + 1..];
        if os[i].name == x {
          var r := ExpectType(lv, mode, os[i].body, want);
          if r.Err? { return Some(r.clash); }
          GrowsOn(w, g, c, View());
          Widens(c, View(), want);
        }
        i := i + 1;
      }
      clash := None;
    }

    method InferOpExpr(lv: nat, mode: Mode, e: Expr) returns (r: Checked<Type>)
      requires Valid() && IsOp(e)
      modifies this
      ensures Did(r, InferOp(w, lv, mode, old(gamma), e, old(View())), View())
      ensures r.Ok? ==> gamma == old(gamma)
      decreases lv, 0, e, 0
    {
      hide Acyclic, Unify, Infer, Expect, Agree, Extends;
      ghost var c, g := View(), gamma;
      var op := OpOf(e);
      if !mode.Allows(op) { return Err(ModeClash(mode, op)); }
      match e
      case Nihil =>
        var t := NewVar();
        r := Ok(t);
      case Clama(m) =>
        r := ExpectType(lv, mode, m, w.throw);
        if r.Ok? {
          var t := NewVar();
          r := Ok(t);
        }
      case Recipe(m, x, h) => r := InferRecipe(lv, mode, m, x, h);
      case Lege => r := Ok(w.state);
      case Pone(m) =>
        r := ExpectType(lv, mode, m, w.state);
        if r.Ok? { r := Ok(TUnit); }
      case Mitte(m) =>
        r := InferExpr(lv, mode, m);
        if r.Ok? {
          preds := preds + [Pred(r.val, CMD_OR_PLAN, CmdH)];
          r := Ok(TUnit);
        }
      case Perage(m) => r := InferPerage(lv, mode, m);
    }

    method InferRecipe(lv: nat, mode: Mode, m: Expr, x: Sym, h: Expr) returns (r: Checked<Type>)
      requires Valid() && mode.Allows(OpRecipe)
      modifies this
      ensures Did(r, InferOp(w, lv, mode, old(gamma), Recipe(m, x, h), old(View())), View())
      ensures r.Ok? ==> gamma == old(gamma)
      decreases lv, 0, Recipe(m, x, h), 0, 0
    {
      hide Acyclic, Unify, Infer, Agree, Extends;
      ghost var c, g := View(), gamma;
      r := InferExpr(lv, mode, m);
      if r.Err? { return; }
      GrowsOn(w, g, c, View());
      gamma := gamma + [Entry(x, w.throw)];
      var clash := AgreeTypes(lv, mode, h, r.val);
      if clash.Some? { return Err(clash.value); }
      gamma := gamma[..|gamma| - 1];
    }

    method InferPerage(lv: nat, mode: Mode, m: Expr) returns (r: Checked<Type>)
      requires Valid() && mode.Allows(OpPerage)
      modifies this
      ensures Did(r, InferOp(w, lv, mode, old(gamma), Perage(m), old(View())), View())
      ensures r.Ok? ==> gamma == old(gamma)
      decreases lv, 0, Perage(m), 0, 0
    {
      hide Acyclic, Unify, Infer, Expect, Extends, Equate;
      ghost var c := View();
      r := ExpectType(lv, mode, m, TPlan);
      if r.Err? { return; }
      Widens(c, View(), w.result);
      var clash := EquateTypes(TUnit, w.result);
      if clash.Some? { return Err(clash.value); }
      var t := NewVar();
      r := Ok(t);
    }

    /** The top-level bind spine, one statement at a time. */
    method WalkSpine(lv: nat, mode: Mode, body: Expr) returns (r: Checked<seq<Type>>)
      requires Valid()
      modifies this
      ensures var spec := Spine(w, lv, mode, old(gamma), body, [], old(View()));
              if spec.Ok? then r == Ok(spec.val.lines) && View() == spec.val.c else r.Err? && r.clash == spec.clash
    {
      hide Good, GammaIn, WorldIn, Extends, Infer, InferStmt, InRange;
      var lines, cur := [], body;
      ghost var spec := Spine(w, lv, mode, gamma, body, [], View());
      while cur.Bind?
        invariant Valid() && forall i :: 0 <= i < |lines| ==> InRange(|subst|, lines[i])
        invariant Spine(w, lv, mode, gamma, cur, lines, View()) == spec
        decreases cur
      {
        hide Spine;
        SpineTurns(w, lv, mode, gamma, cur, lines, View());
        var stmt := InferStatement(lv, mode, cur.m);
        if stmt.Err? { return Err(stmt.clash); }
        gamma := gamma + [Entry(cur.x, stmt.val.1)];
        lines, cur := lines + [stmt.val.0], cur.k;
      }
      var t := InferExpr(lv, mode, cur);
      r := if t.Ok? then Ok(lines) else Err(t.clash);
    }

    /** Lines sharing a label must unify. */
    method Rhyme(labels: seq<char>, sung: seq<Type>) returns (clash: Option<Clash>)
      requires Good(View()) && |sung| == |labels| && forall k :: 0 <= k < |sung| ==> InRange(|subst|, sung[k])
      modifies this`subst
      ensures DidAll(clash, UnifyRhymes(labels, sung, 0, 1, old(View())), View())
    {
      hide Acyclic, Extends, Equate;
      ghost var spec := UnifyRhymes(labels, sung, 0, 1, View());
      var i := 0;
      while i < |labels|
        invariant Good(View()) && forall k :: 0 <= k < |sung| ==> InRange(|subst|, sung[k])
        invariant UnifyRhymes(labels, sung, i, i + 1, View()) == spec
      {
        var j := i + 1;
        while j < |labels|
          invariant i < j
          invariant Good(View()) && forall k :: 0 <= k < |sung| ==> InRange(|subst|, sung[k])
          invariant UnifyRhymes(labels, sung, i, j, View()) == spec
        {
          if labels[i] == labels[j] {
            clash := EquateTypes(sung[i], sung[j]);
            if clash.Some? { return; }
          }
          j := j + 1;
        }
        i := i + 1;
      }
      clash := None;
    }

    method CheckPredicates() returns (clash: Option<Clash>)
      requires Good(View())
      ensures DidAll(clash, CheckPreds(View(), 0), View())
    {
      hide Acyclic, Walk;
      var k := 0;
      while k < |preds|
        invariant 0 <= k <= |preds|
        invariant CheckPreds(View(), k) == CheckPreds(View(), 0)
      {
        var t := Shallow(preds[k].ty);
        if !t.TVar? && t.Hint() !in preds[k].allowed {
          return Some(Types(preds[k].want, t.Hint()));
        }
        k := k + 1;
      }
      clash := None;
    }
  }

  function OpOf(e: Expr): OpKind
    requires IsOp(e)
  {
    match e
    case Nihil => OpNihil
    case Clama(_) => OpClama
    case Recipe(_, _, _) => OpRecipe
    case Lege => OpLege
    case Pone(_) => OpPone
    case Mitte(_) => OpMitte
    case Perage(_) => OpPerage
  }

  method RunCheck(fugues: seq<Fugue>, lv: nat, v: Versus) returns (clash: Option<Clash>, c: Checker)
    ensures DidAll(clash, CheckVersus(fugues, lv, v), c.View())
  {
    hide Acyclic, Extends, Infer, Spine, UnifyRhymes, CheckPreds;
    c := new Checker(fugues);
    if v.rhymes == [] {
      var t := c.InferExpr(lv, v.mode, v.body);
      if t.Err? { return Some(t.clash), c; }
    } else {
      var lines := c.WalkSpine(lv, v.mode, v.body);
      if lines.Err? { return Some(lines.clash), c; }
      Widens(START, c.View(), c.w.result);
      clash := c.Rhyme(v.rhymes, SungTypes(|v.rhymes|, lines.val, c.w.result));
      if clash.Some? { return; }
    }
    clash := c.CheckPredicates();
  }
}
