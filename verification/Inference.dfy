/** The static checker as a function on its state: Hindley-Milner inference mirroring the
    machine's lookups, mode legality, deferred predicates, and rhyme constraints (check.rs). */
module Inference {
  import opened Core
  import opened Unification
  import B = Builtins

  /** A deferred "one of these" constraint. */
  datatype Pred = Pred(ty: Type, allowed: Choice, want: TyHint)

  datatype Entry = Entry(x: Sym, t: Type)

  type Gamma = seq<Entry>

  datatype State = State(st: Subst, preds: seq<Pred>)

  /** The program's fugues and the verse's own type variables. The code's check is the one with
      neither extra: `tied` asks besides that every fixpoint be of functions, and `dark` is how many
      of the lowest state cells a run starts with untyped, which no check looks at. */
  datatype World = World(fugues: seq<Fugue>, arg: Type, state: Type, throw: Type, result: Type, tied: bool, dark: nat)

  datatype Checked<+T> = Ok(val: T) | Err(clash: Clash)
  {
    predicate IsFailure() { Err? }
    function PropagateFailure<U>(): Checked<U> requires Err? { Err(clash) }
    function Extract(): T requires Ok? { val }
  }

  const CMD_OR_PLAN: seq<TyHint> := [CmdH, PlanH]
  const GENUS_OR_STR: seq<TyHint> := [GenusH, StrH]
  const FUN_ONLY: seq<TyHint> := [ClosureH]

  /** The choices there are. */
  type Choice = c: seq<TyHint> | c == CMD_OR_PLAN || c == GENUS_OR_STR || c == FUN_ONLY witness CMD_OR_PLAN

  // --- well-formed states ---

  ghost predicate Good(c: State) {
    Acyclic(c.st) && forall i :: 0 <= i < |c.preds| ==> InRange(|c.st|, c.preds[i].ty)
  }

  predicate GammaIn(n: nat, g: Gamma) {
    forall i :: 0 <= i < |g| ==> InRange(n, g[i].t)
  }

  predicate WorldIn(n: nat, w: World) {
    InRange(n, w.arg) && InRange(n, w.state) && InRange(n, w.throw) && InRange(n, w.result)
  }

  ghost predicate Ready(w: World, g: Gamma, c: State) {
    Good(c) && GammaIn(|c.st|, g) && WorldIn(|c.st|, w)
  }

  /** Checking only adds: equations, variables and predicates. */
  ghost predicate Grows(c: State, c': State) {
    Good(c') && Extends(c.st, c'.st) && c.preds <= c'.preds
  }

  lemma GrowsOn(w: World, g: Gamma, c: State, c': State)
    requires Ready(w, g, c) && Grows(c, c')
    ensures Ready(w, g, c')
  {
    forall i | 0 <= i < |g| ensures InRange(|c'.st|, g[i].t) { Wider(|c.st|, |c'.st|, g[i].t); }
    Wider(|c.st|, |c'.st|, w.arg);
    Wider(|c.st|, |c'.st|, w.state);
    Wider(|c.st|, |c'.st|, w.throw);
    Wider(|c.st|, |c'.st|, w.result);
  }

  lemma GrowsTrans(a: State, b: State, c: State)
    requires Grows(a, b) && Grows(b, c)
    ensures Grows(a, c)
  {
  }

  // --- primitive moves ---

  function Fresh(c: State): (r: (Type, State))
    requires Good(c)
    ensures Grows(c, r.1) && r.0 == TVar(|c.st|) && r.1.st == c.st + [None] && r.1.preds == c.preds
  {
    FreshAcyclic(c.st);
    assert forall i :: 0 <= i < |c.preds| ==> InRange(|c.st| + 1, c.preds[i].ty) by {
      forall i | 0 <= i < |c.preds| ensures InRange(|c.st| + 1, c.preds[i].ty) { Wider(|c.st|, |c.st| + 1, c.preds[i].ty); }
    }
    (TVar(|c.st|), State(c.st + [None], c.preds))
  }

  lemma {:induction false} HeightLonger(rk: seq<nat>, t: Type)
    requires InRange(|rk|, t)
    ensures InRange(|rk| + 1, t) && Height(rk + [0], t) == Height(rk, t)
  {
    if t.Fun? {
      HeightLonger(rk, t.a);
      HeightLonger(rk, t.r);
    }
  }

  lemma FreshAcyclic(st: Subst)
    requires Acyclic(st)
    ensures Acyclic(st + [None])
  {
    var rk := RankOf(st);
    forall i | 0 <= i < |st| && st[i].Some?
      ensures InRange(|st| + 1, st[i].value) && Height(rk + [0], st[i].value) <= rk[i]
    {
      HeightLonger(rk, st[i].value);
    }
    assert Ranked(st + [None], rk + [0]);
  }

  function Equate(c: State, a: Type, b: Type): (r: Checked<State>)
    requires Good(c) && InRange(|c.st|, a) && InRange(|c.st|, b)
    ensures r.Ok? ==> Grows(c, r.val) && |r.val.st| == |c.st| && r.val.preds == c.preds
  {
    match Unify(c.st, a, b)
    case Solved(st) => Ok(State(st, c.preds))
    case Failed(clash) => Err(clash)
  }

  function Defer(c: State, p: Pred): (r: State)
    requires Good(c) && InRange(|c.st|, p.ty)
    ensures Grows(c, r) && r.st == c.st
  {
    State(c.st, c.preds + [p])
  }

  // --- lookups ---

  function TypeOfValue(v: Value): Type {
    match v
    case Unit => TUnit
    case Num(_) => TNum
    case Bool(_) => TBool
    case Genus(_) => TGenus
    case Str(_) => TStr
    case CmdV(_) => TCmd
    case PlanV(_) => TPlan
    case FieldV(_) => TField
    case Record(_) => TCorpus
    case Closure(_, _, _) | Builtin(_, _) => TUnit
  }

  function PedalType(fugues: seq<Fugue>, x: Sym): Option<Type> {
    if fugues == [] then None
    else match FindPedal(fugues[0].pedals, x)
      case Some(v) => Some(TypeOfValue(v))
      case None => PedalType(fugues[1..], x)
  }

  function Answers(fugues: seq<Fugue>): seq<Overload> {
    if fugues == [] then [] else fugues[0].answers + fugues[0].tonals + Answers(fugues[1..])
  }

  predicate Poly(p: B.Prim) {
    p.Eq? || p.Solve? || p.Corpus?
  }

  /** A builtin's signature; `a` is the instance of its type variable, if it has one. */
  function SigOf(p: B.Prim, a: Type): Type {
    match p
    case Add | Sub | Mul | Div => Fun(TNum, Fun(TNum, TNum))
    case Le | Lt => Fun(TNum, Fun(TNum, TBool))
    case Eq => Fun(a, Fun(a, TBool))
    case Not => Fun(TBool, TBool)
    case Dist | Mass | Outgassing => Fun(TCorpus, TNum)
    case GenusOf => Fun(TCorpus, TGenus)
    case Safe => Fun(TCorpus, Fun(TNum, TBool))
    case Solve => Fun(Fun(a, TNum), Fun(a, TNum))
    case Deflect => Fun(TNum, TField)
    case Target | DvOf | At => Fun(TField, TNum)
    case MakeCmd => Fun(TNum, Fun(TNum, Fun(TNum, TCmd)))
    case PlanOf => Fun(TField, TPlan)
    case Corpus => Fun(TNum, Fun(a, Fun(TNum, Fun(TNum, TCorpus))))
  }

  function BuiltinType(p: B.Prim, c: State): (r: (Type, State))
    requires Good(c)
    ensures Grows(c, r.1) && InRange(|r.1.st|, r.0)
  {
    if !Poly(p) then
      SigInRange(|c.st|, p, TUnit);
      (SigOf(p, TUnit), c)
    else
      var (a, c1) := Fresh(c);
      var c2 := if p.Corpus? then Defer(c1, Pred(a, GENUS_OR_STR, GenusH)) else c1;
      GrowsTrans(c, c1, c2);
      SigInRange(|c2.st|, p, a);
      (SigOf(p, a), c2)
  }

  lemma SigInRange(n: nat, p: B.Prim, a: Type)
    requires InRange(n, a)
    ensures InRange(n, SigOf(p, a))
  {
    assert InRange(n, Fun(TNum, TNum)) && InRange(n, Fun(TNum, TBool)) && InRange(n, Fun(a, TBool));
    assert InRange(n, Fun(TNum, Fun(TNum, TCmd))) && InRange(n, Fun(TNum, Fun(TNum, TCorpus)));
    assert InRange(n, Fun(a, TNum)) && InRange(n, Fun(a, Fun(TNum, Fun(TNum, TCorpus))));
  }

  function FindEntry(g: Gamma, x: Sym): Option<Type> {
    if g == [] then None
    else if g[|g| - 1].x == x then Some(g[|g| - 1].t)
    else FindEntry(g[..|g| - 1], x)
  }

  lemma {:induction false} FoundIn(n: nat, g: Gamma, x: Sym)
    requires GammaIn(n, g) && FindEntry(g, x).Some?
    ensures InRange(n, FindEntry(g, x).value)
  {
    if g[|g| - 1].x != x { FoundIn(n, g[..|g| - 1], x); }
  }

  lemma {:induction false} PedalGround(n: nat, fugues: seq<Fugue>, x: Sym)
    ensures PedalType(fugues, x).Some? ==> InRange(n, PedalType(fugues, x).value) && PedalType(fugues, x).value.TVar? == false
  {
    if fugues != [] { PedalGround(n, fugues[1..], x); }
  }

  type Typed = (Type, State)

  ghost predicate Sound(c: State, r: Checked<Typed>) {
    r.Ok? ==> Grows(c, r.val.1) && InRange(|r.val.1.st|, r.val.0)
  }

  /** Lexical scope, then builtins, then the pedals of every fugue. */
  function LookupType(w: World, g: Gamma, x: Sym, c: State): (r: Checked<Typed>)
    requires Ready(w, g, c)
    ensures Sound(c, r)
  {
    match FindEntry(g, x)
    case Some(t) => FoundIn(|c.st|, g, x); Ok((t, c))
    case None =>
      match B.PrimOf(x)
      case Some(p) => Ok(BuiltinType(p, c))
      case None => AskType(w, x, c)
  }

  function AskType(w: World, x: Sym, c: State): (r: Checked<Typed>)
    requires Good(c)
    ensures Sound(c, r)
  {
    PedalGround(|c.st|, w.fugues, x);
    match PedalType(w.fugues, x)
    case Some(t) => Ok((t, c))
    case None => Err(Unbound(x))
  }

  function CheckMode(mode: Mode, op: OpKind): Checked<()> {
    if mode.Allows(op) then Ok(()) else Err(ModeClash(mode, op))
  }

  // --- inference ---

  /** Infer `e`, then equate its type with `want`. */
  function Expect(w: World, lv: nat, mode: Mode, g: Gamma, e: Expr, want: Type, c: State): (r: Checked<Typed>)
    requires Ready(w, g, c) && InRange(|c.st|, want)
    ensures Sound(c, r)
    decreases lv, 0, e, 3
  {
    hide Acyclic, GammaIn, WorldIn, Extends, InRange;
    var (t, c1) :- Infer(w, lv, mode, g, e, c);
    Widens(c, c1, want);
    var c2 :- Equate(c1, t, want);
    Steps(c, c1, c2, t);
    Ok((t, c2))
  }

  /** Infer `e`, then equate the type of its companion with it. */
  function Agree(w: World, lv: nat, mode: Mode, g: Gamma, e: Expr, first: Type, c: State): (r: Checked<State>)
    requires Ready(w, g, c) && InRange(|c.st|, first)
    ensures r.Ok? ==> Grows(c, r.val)
    decreases lv, 0, e, 3
  {
    hide Acyclic, GammaIn, WorldIn, Extends, InRange;
    var (t, c1) :- Infer(w, lv, mode, g, e, c);
    Widens(c, c1, first);
    var c2 :- Equate(c1, first, t);
    Steps(c, c1, c2, t);
    Ok(c2)
  }

  lemma Widens(c: State, c': State, t: Type)
    requires Grows(c, c') && InRange(|c.st|, t)
    ensures InRange(|c'.st|, t)
  {
    Wider(|c.st|, |c'.st|, t);
  }

  lemma Steps(c: State, c1: State, c2: State, t: Type)
    requires Grows(c, c1) && Grows(c1, c2) && InRange(|c1.st|, t)
    ensures Grows(c, c2) && InRange(|c2.st|, t)
  {
    Wider(|c1.st|, |c2.st|, t);
  }

  function Infer(w: World, lv: nat, mode: Mode, g: Gamma, e: Expr, c: State): (r: Checked<Typed>)
    requires Ready(w, g, c)
    ensures Sound(c, r)
    decreases lv, 0, e, 2
  {
    match e
    case Lit(v) => Ok((TypeOfValue(v), c))
    case Var(x) => LookupType(w, g, x, c)
    case Arg => Ok((w.arg, c))
    case Ask(x) => AskType(w, x, c)
    case Pure(_, m) => Infer(w, lv, mode, g, m, c)
    case Lift(m) =>
      var _ :- CheckMode(mode, OpLift);
      Infer(w, lv, Base(mode), g, m, c)
    case Lam(_, _) | App(_, _) | If(_, _, _) | Fix(_) => InferFunctional(w, lv, mode, g, e, c)
    case Return(_, _) | Bind(_, _, _, _) | Resolve(_, _) => InferSequential(w, lv, mode, g, e, c)
    case _ => InferOp(w, lv, mode, g, e, c)
  }

  function InferFunctional(w: World, lv: nat, mode: Mode, g: Gamma, e: Expr, c: State): (r: Checked<Typed>)
    requires Ready(w, g, c) && (e.Lam? || e.App? || e.If? || e.Fix?)
    ensures Sound(c, r)
    decreases lv, 0, e, 0
  {
    hide Acyclic, WorldIn, Extends, Unify;
    match e
    case Lam(x, body) =>
      var (a, c1) := Fresh(c);
      GrowsOn(w, g, c, c1);
      var (t, c2) :- Infer(w, lv, mode, g + [Entry(x, a)], body, c1);
      Widens(c1, c2, a);
      GrowsTrans(c, c1, c2);
      Ok((Fun(a, t), c2))
    case App(f, a) =>
      var (tf, c1) :- Infer(w, lv, mode, g, f, c);
      GrowsOn(w, g, c, c1);
      var (ta, c2) :- Infer(w, lv, mode, g, a, c1);
      var (t, c3) := Fresh(c2);
      Widens(c1, c2, tf);
      Widens(c2, c3, tf);
      Widens(c2, c3, ta);
      var c4 :- Equate(c3, tf, Fun(ta, t));
      GrowsTrans(c, c1, c2);
      GrowsTrans(c, c2, c3);
      Steps(c, c3, c4, t);
      Ok((t, c4))
    case If(b, t, f) =>
      var (_, c1) :- Expect(w, lv, mode, g, b, TBool, c);
      GrowsOn(w, g, c, c1);
      var (tt, c2) :- Infer(w, lv, mode, g, t, c1);
      GrowsOn(w, g, c1, c2);
      var c3 :- Agree(w, lv, mode, g, f, tt, c2);
      GrowsTrans(c, c1, c2);
      Steps(c, c2, c3, tt);
      Ok((tt, c3))
    case Fix(f) =>
      var (tf, c1) :- Infer(w, lv, mode, g, f, c);
      var (a, c2) := Fresh(c1);
      Widens(c1, c2, tf);
      var c3 :- Equate(c2, tf, Fun(a, a));
      GrowsTrans(c, c1, c2);
      Steps(c, c2, c3, a);
      if !w.tied then Ok((a, c3))
      else
        var c4 := Defer(c3, Pred(a, FUN_ONLY, ClosureH));
        Steps(c, c3, c4, a);
        Ok((a, c4))
  }

  /** A cadence, a line and what follows it, and the overloads of a name inferred where it is
      resolved. `lv` bounds how deep overloads may resolve overloads; without the bound a cycle
      of names has no end. */
  function InferSequential(w: World, lv: nat, mode: Mode, g: Gamma, e: Expr, c: State): (r: Checked<Typed>)
    requires Ready(w, g, c) && (e.Return? || e.Bind? || e.Resolve?)
    ensures Sound(c, r)
    decreases lv, 0, e, 0
  {
    hide Acyclic, Extends, Unify;
    match e
    case Return(_, m) =>
      var (_, c1) :- Expect(w, lv, mode, g, m, w.result, c);
      var r := Fresh(c1); // any type will do
      GrowsTrans(c, c1, r.1);
      Ok(r)
    case Bind(_, m, x, k) =>
      var stmt :- InferStmt(w, lv, mode, g, m, c);
      GrowsOn(w, g, c, stmt.c);
      var (t, c2) :- Infer(w, lv, mode, g + [Entry(x, stmt.bound)], k, stmt.c);
      GrowsTrans(c, stmt.c, c2);
      Ok((t, c2))
    case Resolve(x, n) =>
      var (_, c1) :- Expect(w, lv, mode, g, n, TGenus, c);
      var (t, c2) := Fresh(c1);
      GrowsTrans(c, c1, c2);
      GrowsOn(w, g, c, c2);
      var os := Answers(w.fugues);
      if !Mentions(os, x) then Ok((t, c2))
      else if lv == 0 then Err(Bottomless)
      else
        var c3 :- InferAnswers(w, lv - 1, mode, g, os, x, t, c2);
        Steps(c, c2, c3, t);
        Ok((t, c3))
  }

  /** The type a sung line carries and the type its binder gets. */
  datatype Stmt = Stmt(line: Type, bound: Type, c: State)

  function InferStmt(w: World, lv: nat, mode: Mode, g: Gamma, m: Expr, c: State): (r: Checked<Stmt>)
    requires Ready(w, g, c)
    ensures r.Ok? ==> Grows(c, r.val.c) && InRange(|r.val.c.st|, r.val.line) && InRange(|r.val.c.st|, r.val.bound)
    decreases lv, 0, m, 4
  {
    match m
    case Pone(e) =>
      var _ :- CheckMode(mode, OpPone);
      var (t, c1) :- Expect(w, lv, mode, g, e, w.state, c);
      Ok(Stmt(t, TUnit, c1))
    case Mitte(e) =>
      var _ :- CheckMode(mode, OpMitte);
      var (t, c1) :- Infer(w, lv, mode, g, e, c);
      var c2 := Defer(c1, Pred(t, CMD_OR_PLAN, CmdH));
      GrowsTrans(c, c1, c2);
      Ok(Stmt(t, TUnit, c2))
    case _ =>
      var (t, c1) :- Infer(w, lv, mode, g, m, c);
      Ok(Stmt(t, t, c1))
  }

  predicate Mentions(os: seq<Overload>, x: Sym) {
    os != [] && (os[0].name == x || Mentions(os[1..], x))
  }

  /** Every answer for the name must fit one type. */
  function InferAnswers(w: World, lv: nat, mode: Mode, g: Gamma, os: seq<Overload>, x: Sym, want: Type,
          c: State): (r: Checked<State>)
    requires Ready(w, g, c) && InRange(|c.st|, want)
    ensures r.Ok? ==> Grows(c, r.val)
    decreases lv, 1, |os|
  {
    if os == [] then Ok(c)
    else if os[0].name != x then InferAnswers(w, lv, mode, g, os[1..], x, want, c)
    else
      var (_, c1) :- Expect(w, lv, mode, g, os[0].body, want, c);
      GrowsOn(w, g, c, c1);
      Widens(c, c1, want);
      var c2 :- InferAnswers(w, lv, mode, g, os[1..], x, want, c1);
      GrowsTrans(c, c1, c2);
      Ok(c2)
  }

  predicate IsOp(e: Expr) {
    e.Nihil? || e.Clama? || e.Recipe? || e.Lege? || e.Pone? || e.Mitte? || e.Perage?
  }

  function InferOp(w: World, lv: nat, mode: Mode, g: Gamma, e: Expr, c: State): (r: Checked<Typed>)
    requires Ready(w, g, c) && IsOp(e)
    ensures Sound(c, r)
    decreases lv, 0, e, 0
  {
    hide Acyclic, Unify;
    match e
    case Nihil =>
      var _ :- CheckMode(mode, OpNihil);
      Ok(Fresh(c))
    case Clama(m) =>
      var _ :- CheckMode(mode, OpClama);
      var (_, c1) :- Expect(w, lv, mode, g, m, w.throw, c);
      var r := Fresh(c1);
      GrowsTrans(c, c1, r.1);
      Ok(r)
    case Recipe(m, x, h) =>
      var _ :- CheckMode(mode, OpRecipe);
      var (t, c1) :- Infer(w, lv, mode, g, m, c);
      GrowsOn(w, g, c, c1);
      var c2 :- Agree(w, lv, mode, g + [Entry(x, w.throw)], h, t, c1);
      Steps(c, c1, c2, t);
      Ok((t, c2))
    case Lege =>
      var _ :- CheckMode(mode, OpLege);
      Ok((w.state, c))
    case Pone(m) =>
      var _ :- CheckMode(mode, OpPone);
      var (_, c1) :- Expect(w, lv, mode, g, m, w.state, c);
      Ok((TUnit, c1))
    case Mitte(m) =>
      var _ :- CheckMode(mode, OpMitte);
      var (t, c1) :- Infer(w, lv, mode, g, m, c);
      var c2 := Defer(c1, Pred(t, CMD_OR_PLAN, CmdH));
      GrowsTrans(c, c1, c2);
      Ok((TUnit, c2))
    case Perage(m) =>
      var _ :- CheckMode(mode, OpPerage);
      var (_, c1) :- Expect(w, lv, mode, g, m, TPlan, c);
      Widens(c, c1, w.result);
      var c2 :- Equate(c1, TUnit, w.result); // there is no value to return
      var r := Fresh(c2);
      GrowsTrans(c, c1, c2);
      GrowsTrans(c, c2, r.1);
      Ok(r)
  }
}
