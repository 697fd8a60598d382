/** What it is for a run-time value to have a type, and what a typing of an expression allows:
    more entries in the scope that nobody sees, and the answers a name may resolve to. */
module TypedValues {
  import opened Core
  import opened Machine
  import opened Meaning
  import opened Unification
  import opened Inference
  import opened Typing
  import opened Syntax
  import E = Erasure
  import B = Builtins

  // --- well-formed programs ---

  /** A body record as `corpus` makes it, or one with an outgassing rate. */
  predicate BodyRecord(m: map<Sym, Value>) {
    && "mass" in m && m["mass"].Num?
    && "dist" in m && m["dist"].Num?
    && "genus" in m && m["genus"].Genus?
    && ("outgassing" in m ==> m["outgassing"].Num?)
  }

  /** A value that can stand in a score or a pedal. */
  predicate Literal(v: Value) {
    !v.Closure? && !v.Builtin? && (v.Record? ==> BodyRecord(v.entries))
  }

  const SELF: Sym := "$stretto"

  /** Literals are literals, and a fixpoint is taken of an operand that does not mention the name
      the machine ties the knot with. */
  predicate WellFormed(held: bool, e: Expr) {
    match e
    case Lit(v) => Literal(v)
    case Var(_) | Arg | Ask(_) | Nihil | Lege => true
    case Lam(_, b) => WellFormed(held, b)
    case App(f, a) => WellFormed(held, f) && WellFormed(held, a)
    case If(c, t, f) => WellFormed(held, c) && WellFormed(held, t) && WellFormed(held, f)
    case Fix(f) => !E.Free(held, SELF, f) && WellFormed(held, f)
    case Pure(_, m) => WellFormed(held, m)
    case Return(_, m) => WellFormed(held, m)
    case Bind(_, m, _, k) => WellFormed(held, m) && WellFormed(held, k)
    case Resolve(_, n) => WellFormed(held, n)
    case Clama(m) => WellFormed(held, m)
    case Recipe(m, _, h) => WellFormed(held, m) && WellFormed(held, h)
    case Pone(m) => WellFormed(held, m)
    case Mitte(m) => WellFormed(held, m)
    case Perage(m) => WellFormed(held, m)
    case Lift(m) => WellFormed(held, m)
  }

  /** An overload mentions the knot's name. */
  predicate Knotted(fugues: seq<Fugue>) {
    E.HeldIn(Answers(fugues), SELF)
  }

  predicate AllLiteral(ps: seq<Pedal>) {
    forall i :: 0 <= i < |ps| ==> Literal(ps[i].value)
  }

  predicate FitProgram(fugues: seq<Fugue>) {
    && (forall i :: 0 <= i < |Answers(fugues)| ==> WellFormed(Knotted(fugues), Answers(fugues)[i].body))
    && forall i :: 0 <= i < |fugues| ==> AllLiteral(fugues[i].pedals)
  }

  /** The checker names the type of a literal as the machine names the kind of its value. */
  lemma NamesAgree(v: Value)
    requires Literal(v)
    ensures TypeOfValue(v).Hint() == v.Ty()
  {
  }

  // --- typed values ---

  /** The parameter types of a curried function, and what is left after some of them. */
  function Param(sig: Type, i: nat): Type {
    if !sig.Fun? then sig else if i == 0 then sig.a else Param(sig.r, i - 1)
  }

  function Left(sig: Type, n: nat): Type {
    if n == 0 || !sig.Fun? then sig else Left(sig.r, n - 1)
  }

  predicate InstanceOk(p: B.Prim, a: Type) {
    p.Corpus? ==> a.TGenus? || a.TStr?
  }

  /** Code that may run wherever at least `n` layers are visible: it reads no cell that may be
      untyped. */
  predicate Reads(w: World, lv: nat, n: nat, e: Expr) {
    AtHome(w.fugues, lv, OpLege, w.dark, n, e)
  }

  ghost predicate HasV(w: World, v: Value, t: Type)
    decreases v, 0
  {
    match v
    case Closure(x, b, env) =>
      t.Fun? && exists lv, mode, g :: HasScope(w, env, g) && BodyHas(w, lv, mode, g, x, b, t)
    case Builtin(n, args) =>
      B.PrimOf(n).Some? && |args| < B.ArityOf(B.PrimOf(n).value) &&
      exists a ::
        && InstanceOk(B.PrimOf(n).value, a) && t == Left(SigOf(B.PrimOf(n).value, a), |args|)
        && forall i :: 0 <= i < |args| ==> HasV(w, args[i], Param(SigOf(B.PrimOf(n).value, a), i))
    case Record(m) => t == TCorpus && BodyRecord(m)
    case _ => t == TypeOfValue(v)
  }

  /** A function body of the type, for any depth it may be called at. */
  ghost predicate BodyHas(w: World, lv: nat, mode: Mode, g: Gamma, x: Sym, b: Expr, t: Type)
    requires t.Fun?
  {
    WellFormed(Knotted(w.fugues), b) && Reads(w, lv, 1, b) && HasType(w, lv, mode, g + [Entry(x, t.a)], b, t.r)
  }

  /** The scope binds what the typing scope lists, newest last. */
  ghost predicate HasScope(w: World, s: Scope, g: Gamma)
    decreases s, 0
  {
    match s
    case Empty => g == []
    case Node(x, v, next) =>
      g != [] && g[|g| - 1].x == x && HasV(w, v, g[|g| - 1].t) && HasScope(w, next, g[..|g| - 1])
  }

  /** All layers are state cells or none is, and but for the lowest, dark ones the cells are
      typed. */
  ghost predicate HasL(w: World, L: seq<Layer>) {
    && L != []
    && (forall i :: 0 <= i < |L| ==> (L[i].StateL? <==> L[0].StateL?))
    && forall i :: 0 <= i < |L| - w.dark && L[i].StateL? ==> HasV(w, L[i].cell, w.state)
  }

  /** The dissonances a well-typed run may end in. */
  predicate Excused(d: Dissonance) {
    !d.Dissonant? && !d.Unconsecrated? && !d.UnboundVar?
  }

  ghost predicate HasR(w: World, t: Type, r: Res) {
    match r
    case Yield(v, L, _) => HasV(w, v, t) && HasL(w, L)
    case Raise(v, L, _, _) => HasV(w, v, w.throw) && HasL(w, L)
    case Halted(v, _, L) => HasV(w, v, w.result) && HasL(w, L)
    case Abort(d) => Excused(d) && !d.User?
    case Out => true
  }

  lemma LiteralHas(w: World, v: Value)
    requires Literal(v)
    ensures HasV(w, v, TypeOfValue(v))
  {
  }

  lemma {:induction false} Looked(w: World, s: Scope, g: Gamma, x: Sym)
    requires HasScope(w, s, g)
    ensures var v, t := s.Lookup(x), FindEntry(g, x); v.Some? == t.Some? && (v.Some? ==> HasV(w, v.value, t.value))
  {
    hide HasV;
    if s.Node? && s.name != x { Looked(w, s.next, g[..|g| - 1], x); }
  }

  lemma ScopeSnoc(w: World, s: Scope, g: Gamma, x: Sym, v: Value, t: Type)
    requires HasScope(w, s, g) && HasV(w, v, t)
    ensures HasScope(w, s.Bind(x, v), g + [Entry(x, t)])
  {
    hide HasV;
    assert (g + [Entry(x, t)])[..|g|] == g;
  }

  lemma ClosureHas(w: World, x: Sym, b: Expr, s: Scope, t: Type, lv: nat, mode: Mode, g: Gamma)
    requires t.Fun? && HasScope(w, s, g) && BodyHas(w, lv, mode, g, x, b, t)
    ensures HasV(w, Closure(x, b, s), t)
  {
    hide BodyHas, HasScope;
  }

  // --- the checker's environment is the machine's ---

  lemma {:induction false} FoundLiteral(ps: seq<Pedal>, x: Sym)
    requires AllLiteral(ps) && FindPedal(ps, x).Some?
    ensures Literal(FindPedal(ps, x).value)
  {
    if ps[0].name != x { FoundLiteral(ps[1..], x); }
  }

  lemma {:induction false} FindAppended(ps: seq<Pedal>, qs: seq<Pedal>, x: Sym)
    ensures FindPedal(ps + qs, x) == if FindPedal(ps, x).Some? then FindPedal(ps, x) else FindPedal(qs, x)
  {
    if ps == [] {
      assert ps + qs == qs;
    } else {
      assert (ps + qs)[1..] == ps[1..] + qs;
      FindAppended(ps[1..], qs, x);
    }
  }

  /** The checker finds a pedal where the machine does, with the type of its value. */
  lemma {:induction false} PedalFound(fugues: seq<Fugue>, phys: Physics, x: Sym)
    ensures var v, t := FindPedal(EnvOf(fugues, phys).pedals, x), PedalType(fugues, x);
            v.Some? == t.Some? && (v.Some? ==> t.value == TypeOfValue(v.value))
    ensures (forall i :: 0 <= i < |fugues| ==> AllLiteral(fugues[i].pedals)) && FindPedal(EnvOf(fugues, phys).pedals, x).Some? ==>
              Literal(FindPedal(EnvOf(fugues, phys).pedals, x).value)
  {
    if fugues != [] {
      PedalFound(fugues[1..], phys, x);
      FindAppended(fugues[0].pedals, EnvOf(fugues[1..], phys).pedals, x);
      if FindPedal(fugues[0].pedals, x).Some? && AllLiteral(fugues[0].pedals) {
        FoundLiteral(fugues[0].pedals, x);
      }
    }
  }

  predicate Lists(os: seq<Overload>, x: Sym, e: Expr) {
    exists i :: 0 <= i < |os| && os[i].name == x && os[i].body == e
  }

  lemma {:induction false} FoundListed(os: seq<Overload>, x: Sym, g: Sym)
    requires FindOverload(os, x, g).Some?
    ensures Lists(os, x, FindOverload(os, x, g).value)
  {
    if os[0].name == x && os[0].genus == g {
      assert os[0].body == FindOverload(os, x, g).value;
    } else {
      FoundListed(os[1..], x, g);
      var i :| 0 <= i < |os| - 1 && os[1..][i].name == x && os[1..][i].body == FindOverload(os, x, g).value;
      assert os[i + 1] == os[1..][i];
    }
  }

  lemma {:induction false} AnswersListed(fugues: seq<Fugue>, phys: Physics, o: Overload)
    requires o in EnvOf(fugues, phys).answers || o in EnvOf(fugues, phys).tonals
    ensures o in Answers(fugues)
  {
    if o !in fugues[0].answers && o !in fugues[0].tonals {
      AnswersListed(fugues[1..], phys, o);
    }
  }

  /** What the machine resolves a name to is among the answers the checker inferred. */
  lemma ResolvedIsAnswer(fugues: seq<Fugue>, phys: Physics, x: Sym, g: Sym)
    requires ResolveIn(EnvOf(fugues, phys), x, g).Some?
    ensures Lists(Answers(fugues), x, ResolveIn(EnvOf(fugues, phys), x, g).value)
  {
    var env := EnvOf(fugues, phys);
    var os := if FindOverload(env.answers, x, g).Some? then env.answers else env.tonals;
    FoundListed(os, x, g);
    var i :| 0 <= i < |os| && os[i].name == x && os[i].body == ResolveIn(env, x, g).value;
    AnswersListed(fugues, phys, os[i]);
    var j :| 0 <= j < |Answers(fugues)| && Answers(fugues)[j] == os[i];
  }

  lemma {:induction false} AnswerHas(w: World, lv: nat, mode: Mode, g: Gamma, os: seq<Overload>, x: Sym,
          t: Type, e: Expr)
    requires AnswersHave(w, lv, mode, g, os, x, t) && Lists(os, x, e)
    ensures HasType(w, lv, mode, g, e, t)
  {
    hide HasType;
    var i :| 0 <= i < |os| && os[i].name == x && os[i].body == e;
    if i > 0 {
      assert os[1..][i - 1] == os[i];
      AnswerHas(w, lv, mode, g, os[1..], x, t, e);
    }
  }

  lemma {:induction false} ListedMentions(os: seq<Overload>, x: Sym, e: Expr)
    requires Lists(os, x, e)
    ensures Mentions(os, x)
  {
    var i :| 0 <= i < |os| && os[i].name == x && os[i].body == e;
    if i > 0 {
      assert os[1..][i - 1] == os[i];
      ListedMentions(os[1..], x, e);
    }
  }

  // --- weakening ---

  predicate Shadowed(g: Gamma, x: Sym) {
    exists i :: 0 <= i < |g| && g[i].x == x
  }

  /** The scope with one more entry under the newer ones. */
  function Under(g1: Gamma, n: Entry, g2: Gamma): Gamma {
    g1 + [n] + g2
  }

  lemma {:induction false} FoundUnder(g1: Gamma, n: Entry, g2: Gamma, x: Sym)
    requires x != n.x || Shadowed(g2, n.x)
    ensures FindEntry(Under(g1, n, g2), x) == FindEntry(g1 + g2, x)
    decreases g2
  {
    var g := Under(g1, n, g2);
    if g2 == [] {
      assert g[..|g| - 1] == g1 == g1 + g2;
    } else {
      assert g[..|g| - 1] == Under(g1, n, g2[..|g2| - 1]);
      assert (g1 + g2)[..|g1 + g2| - 1] == g1 + g2[..|g2| - 1];
      assert g[|g| - 1] == g2[|g2| - 1] == (g1 + g2)[|g1 + g2| - 1];
      if g2[|g2| - 1].x != x {
        FoundUnder(g1, n, g2[..|g2| - 1], x);
      }
    }
  }

  /** `e` cannot see the extra entry. */
  predicate Blind(w: World, n: Entry, g2: Gamma, e: Expr) {
    E.Free(E.HeldIn(Answers(w.fugues), n.x), n.x, e) ==> Shadowed(g2, n.x)
  }

  lemma BlindUnder(w: World, n: Entry, g2: Gamma, x: Sym, t: Type, e: Expr, b: Expr)
    requires Blind(w, n, g2, e)
    requires var h := E.HeldIn(Answers(w.fugues), n.x); n.x != x && E.Free(h, n.x, b) ==> E.Free(h, n.x, e)
    ensures Blind(w, n, g2 + [Entry(x, t)], b)
  {
    var g := g2 + [Entry(x, t)];
    if x == n.x {
      assert g[|g2|].x == n.x;
    } else if Shadowed(g2, n.x) {
      var i :| 0 <= i < |g2| && g2[i].x == n.x;
      assert g[i].x == n.x;
    }
  }

  lemma NameUnder(w: World, lv: nat, mode: Mode, g1: Gamma, n: Entry, g2: Gamma, x: Sym, t: Type)
    requires HasType(w, lv, mode, g1 + g2, Var(x), t) && Blind(w, n, g2, Var(x))
    ensures HasType(w, lv, mode, Under(g1, n, g2), Var(x), t)
  {
    hide PrimHas, E.HeldIn;
    FoundUnder(g1, n, g2, x);
  }

  lemma {:induction false} Weakening(w: World, lv: nat, mode: Mode, g1: Gamma, n: Entry, g2: Gamma, e: Expr, t: Type)
    requires HasType(w, lv, mode, g1 + g2, e, t) && Blind(w, n, g2, e)
    ensures HasType(w, lv, mode, Under(g1, n, g2), e, t)
    decreases lv, 0, e, 1
  {
    hide OpHasType, Shadowed, PrimHas, AnswersHave, Under, E.HeldIn, Answers, NameHas;
    match e
    case Lit(_) | Arg | Ask(_) =>
    case Var(x) => NameUnder(w, lv, mode, g1, n, g2, x, t);
    case Pure(_, _) | Lift(_) | Fix(_) | Return(_, _) => UnaryWeakening(w, lv, mode, g1, n, g2, e, t);
    case Lam(x, b) => WeakerBody(w, lv, mode, g1, n, g2, x, t.a, e, b, t.r);
    case App(_, _) | If(_, _, _) => BranchWeakening(w, lv, mode, g1, n, g2, e, t);
    case Bind(_, _, _, _) | Resolve(_, _) => SequelWeakening(w, lv, mode, g1, n, g2, e, t);
    case _ =>
      OpTyped(w, lv, mode, g1 + g2, e, t);
      OpTyped(w, lv, mode, Under(g1, n, g2), e, t);
      OpWeakening(w, lv, mode, g1, n, g2, e, t);
  }

  lemma {:induction false} UnaryWeakening(w: World, lv: nat, mode: Mode, g1: Gamma, n: Entry, g2: Gamma,
          e: Expr, t: Type)
    requires e.Pure? || e.Lift? || e.Fix? || e.Return?
    requires HasType(w, lv, mode, g1 + g2, e, t) && Blind(w, n, g2, e)
    ensures HasType(w, lv, mode, Under(g1, n, g2), e, t)
    decreases lv, 0, e, 0
  {
    hide OpHasType, Shadowed, PrimHas, AnswersHave, Under, E.HeldIn, Answers, NameHas;
    match e
    case Pure(_, m) => Weakening(w, lv, mode, g1, n, g2, m, t);
    case Lift(m) => Weakening(w, lv, Base(mode), g1, n, g2, m, t);
    case Fix(f) => Weakening(w, lv, mode, g1, n, g2, f, Fun(t, t));
    case Return(_, m) => Weakening(w, lv, mode, g1, n, g2, m, w.result);
  }

  lemma {:induction false} BranchWeakening(w: World, lv: nat, mode: Mode, g1: Gamma, n: Entry, g2: Gamma,
          e: Expr, t: Type)
    requires e.App? || e.If?
    requires HasType(w, lv, mode, g1 + g2, e, t) && Blind(w, n, g2, e)
    ensures HasType(w, lv, mode, Under(g1, n, g2), e, t)
    decreases lv, 0, e, 0
  {
    hide HasType, Shadowed, Under, E.HeldIn, Answers;
    if e.App? {
      var u := AppParts(w, lv, mode, g1 + g2, e, t);
      Weakening(w, lv, mode, g1, n, g2, e.f, Fun(u, t));
      Weakening(w, lv, mode, g1, n, g2, e.a, u);
      AppWhole(w, lv, mode, Under(g1, n, g2), e, t, u);
    } else {
      IfParts(w, lv, mode, g1 + g2, e, t);
      Weakening(w, lv, mode, g1, n, g2, e.c, TBool);
      Weakening(w, lv, mode, g1, n, g2, e.t, t);
      Weakening(w, lv, mode, g1, n, g2, e.e, t);
      IfParts(w, lv, mode, Under(g1, n, g2), e, t);
    }
  }

  lemma {:induction false} SequelWeakening(w: World, lv: nat, mode: Mode, g1: Gamma, n: Entry, g2: Gamma,
          e: Expr, t: Type)
    requires e.Bind? || e.Resolve?
    requires HasType(w, lv, mode, g1 + g2, e, t) && Blind(w, n, g2, e)
    ensures HasType(w, lv, mode, Under(g1, n, g2), e, t)
    decreases lv, 0, e, 0
  {
    hide HasType, Shadowed, AnswersHave, Under, E.HeldIn, Answers;
    if e.Bind? {
      var u := BindParts(w, lv, mode, g1 + g2, e, t);
      Weakening(w, lv, mode, g1, n, g2, e.m, u);
      WeakerBody(w, lv, mode, g1, n, g2, e.x, u, e, e.k, t);
      BindWhole(w, lv, mode, Under(g1, n, g2), e, t, u);
    } else {
      ResolveParts(w, lv, mode, g1 + g2, e, t);
      Weakening(w, lv, mode, g1, n, g2, e.g, TGenus);
      if Mentions(Answers(w.fugues), e.x) {
        AnswersWeaken(w, lv - 1, mode, g1, n, g2, Answers(w.fugues), e.x, t);
      }
      ResolveParts(w, lv, mode, Under(g1, n, g2), e, t);
    }
  }

  lemma {:induction false} WeakerBody(w: World, lv: nat, mode: Mode, g1: Gamma, n: Entry, g2: Gamma, x: Sym,
          u: Type, e: Expr, b: Expr, t: Type)
    requires HasType(w, lv, mode, g1 + g2 + [Entry(x, u)], b, t) && Blind(w, n, g2, e)
    requires var h := E.HeldIn(Answers(w.fugues), n.x); n.x != x && E.Free(h, n.x, b) ==> E.Free(h, n.x, e)
    ensures HasType(w, lv, mode, Under(g1, n, g2) + [Entry(x, u)], b, t)
    decreases lv, 0, b, 3
  {
    hide HasType, Blind, E.Free;
    BlindUnder(w, n, g2, x, u, e, b);
    assert g1 + g2 + [Entry(x, u)] == g1 + (g2 + [Entry(x, u)]);
    assert Under(g1, n, g2) + [Entry(x, u)] == Under(g1, n, g2 + [Entry(x, u)]);
    Weakening(w, lv, mode, g1, n, g2 + [Entry(x, u)], b, t);
  }

  lemma {:induction false} OpWeakening(w: World, lv: nat, mode: Mode, g1: Gamma, n: Entry, g2: Gamma, e: Expr, t: Type)
    requires Inference.IsOp(e) && OpHasType(w, lv, mode, g1 + g2, e, t) && Blind(w, n, g2, e)
    ensures OpHasType(w, lv, mode, Under(g1, n, g2), e, t)
    decreases lv, 0, e, 0
  {
    hide HasType, Shadowed, Under, E.HeldIn, Answers;
    match e
    case Nihil | Lege =>
    case Clama(m) => Weakening(w, lv, mode, g1, n, g2, m, w.throw);
    case Recipe(m, x, h) =>
      Weakening(w, lv, mode, g1, n, g2, m, t);
      WeakerBody(w, lv, mode, g1, n, g2, x, w.throw, e, h, t);
    case Pone(m) => Weakening(w, lv, mode, g1, n, g2, m, w.state);
    case Mitte(m) => Weakening(w, lv, mode, g1, n, g2, m, if HasType(w, lv, mode, g1 + g2, m, TCmd) then TCmd else TPlan);
    case Perage(m) => Weakening(w, lv, mode, g1, n, g2, m, TPlan);
  }

  lemma {:induction false} AnswersWeaken(w: World, lv: nat, mode: Mode, g1: Gamma, n: Entry, g2: Gamma,
          os: seq<Overload>, x: Sym, t: Type)
    requires AnswersHave(w, lv, mode, g1 + g2, os, x, t)
    requires !E.HeldIn(Answers(w.fugues), n.x) || Shadowed(g2, n.x)
    requires E.HeldIn(os, n.x) ==> E.HeldIn(Answers(w.fugues), n.x)
    ensures AnswersHave(w, lv, mode, Under(g1, n, g2), os, x, t)
    decreases lv, 1, |os|
  {
    hide HasType, Shadowed, Under, Answers;
    if os != [] {
      if os[0].name == x {
        Weakening(w, lv, mode, g1, n, g2, os[0].body, t);
      }
      AnswersWeaken(w, lv, mode, g1, n, g2, os[1..], x, t);
    }
  }
}
