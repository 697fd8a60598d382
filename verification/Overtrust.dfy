/** Where the checker is too trusting: accepted verses that go wrong, one for each condition of
    `Accepted.AcceptedVersesDoNotGoWrong`. */
module Overtrust {
  import opened Core
  import opened Machine
  import opened Meaning
  import opened Unification
  import opened Inference
  import opened Typing
  import opened Verses
  import opened Adequacy
  import opened Accepted
  import opened Syntax
  import opened TypedValues
  import opened Assignment
  import opened Closings
  import S = Score
  import B = Builtins

  // --- a cell that does not have the state type ---

  const READ_BELOW: Expr := If(Lift(Lege), Lit(Unit), Lit(Unit))

  /** Both cells of a Hypolydian verse share one type variable, but the lower one starts as an
      empty record: reading it as the state type goes wrong. */
  lemma LowerCellGoesWrong(env: Env, b: bool, fuel: nat)
    requires fuel >= 5
    ensures CheckVersus([], 0, Versus("v", Hypolydian, READ_BELOW, [])).Ok?
    ensures RunVerse(env, Hypolydian, READ_BELOW, Unit, Bool(b), fuel) == Ended(Broken(Dissonant(BoolH, RecordH)))
    ensures forall w: World :: w.dark == 1 ==> !Careful(w, 0, 2, READ_BELOW)
  {
    hide CheckVersus, HasType, Careful;
    var w := World([], TUnit, TBool, TUnit, TUnit, false, 0);
    ReadTyped(w);
    var th := TypableIsAccepted([], 0, Versus("v", Hypolydian, READ_BELOW, []), w, TUnit);
    ReadsBelow(env, b, fuel);
    ReadsInTheDark();
    RunIsMeaning(env, Hypolydian, READ_BELOW, Unit, Bool(b), fuel);
  }

  lemma ReadsInTheDark()
    ensures forall w: World :: w.dark == 1 ==> !Careful(w, 0, 2, READ_BELOW) && !Careful(w, 0, 1, READ_EMPTY)
  {
    assert Subs(READ_BELOW)[0] == READ_BELOW.c && Subs(READ_BELOW.c)[0] == Lege && Subs(READ_EMPTY)[0] == Lege;
  }

  lemma ReadTyped(w: World)
    requires w.state == TBool
    ensures HasType(w, 0, Hypolydian, [], READ_BELOW, TUnit)
  {
    hide AnswersHave, NameHas;
    assert HasType(w, 0, Lydian, [], Lege, TBool);
    assert HasType(w, 0, Hypolydian, [], Lift(Lege), TBool);
  }

  lemma ReadsBelow(env: Env, b: bool, fuel: nat)
    requires fuel >= 5
    ensures Meant(env, Hypolydian, READ_BELOW, Unit, Bool(b), fuel) == Abort(Dissonant(BoolH, RecordH))
  {
    var ctx, L := Ctx(env, Hypolydian, Unit), [StateL(Bool(b)), StateL(EMPTY_STATE)];
    Towers(Hypolydian, Bool(b));
    assert Kinds(L) == [StateK, StateK] && Kinds(L[1..]) == [StateK];
    assert SlotOf(Lege, Kinds(L[1..])) == Some(0);
    assert Denote(ctx, Lege, Empty, L[1..], fuel - 2) == Yield(EMPTY_STATE, L[1..], fuel - 3);
    assert Denote(ctx, Lift(Lege), Empty, L, fuel - 1) == Yield(EMPTY_STATE, [L[0]] + L[1..], fuel - 4);
    assert [L[0]] + L[1..] == L;
    Unfold(ctx, READ_BELOW, Empty, L, fuel);
    var r := FirstRes(ctx, READ_BELOW, Empty, L, fuel);
    assert r == Yield(EMPTY_STATE, L, fuel - 4);
    assert DenoteRest(ctx, READ_BELOW, Empty, r.v, r.L, r.left - 1) == Abort(Dissonant(BoolH, RecordH));
  }

  const READ_EMPTY: Expr := If(Lege, Lit(Unit), Lit(Unit))

  /** So does a Lydian verse that reads the empty record the driver seeds. */
  lemma EmptyCellGoesWrong(env: Env, arg: Value, fuel: nat)
    requires fuel >= 3
    ensures CheckVersus([], 0, Versus("v", Lydian, READ_EMPTY, [])).Ok?
    ensures RunVerse(env, Lydian, READ_EMPTY, arg, EMPTY_STATE, fuel) == Ended(Broken(Dissonant(BoolH, RecordH)))
    ensures forall w: World :: w.dark == 1 ==> !Careful(w, 0, 1, READ_EMPTY)
  {
    hide CheckVersus, HasType, Careful;
    var w := World([], TUnit, TBool, TUnit, TUnit, false, 0);
    EmptyTyped(w);
    var th := TypableIsAccepted([], 0, Versus("v", Lydian, READ_EMPTY, []), w, TUnit);
    ReadsEmpty(env, arg, fuel);
    ReadsInTheDark();
    RunIsMeaning(env, Lydian, READ_EMPTY, arg, EMPTY_STATE, fuel);
  }

  lemma EmptyTyped(w: World)
    requires w.state == TBool
    ensures HasType(w, 0, Lydian, [], READ_EMPTY, TUnit)
  {
    hide AnswersHave, NameHas;
    assert HasType(w, 0, Lydian, [], Lege, TBool);
  }

  lemma ReadsEmpty(env: Env, arg: Value, fuel: nat)
    requires fuel >= 3
    ensures Meant(env, Lydian, READ_EMPTY, arg, EMPTY_STATE, fuel) == Abort(Dissonant(BoolH, RecordH))
  {
    var ctx, L := Ctx(env, Lydian, arg), [StateL(EMPTY_STATE)];
    Towers(Lydian, EMPTY_STATE);
    assert Kinds(L) == [StateK] && SlotOf(Lege, Kinds(L)) == Some(0);
    assert Denote(ctx, Lege, Empty, L, fuel - 1) == Yield(EMPTY_STATE, L, fuel - 2);
    Unfold(ctx, READ_EMPTY, Empty, L, fuel);
    assert DenoteRest(ctx, READ_EMPTY, Empty, EMPTY_STATE, L, fuel - 3) == Abort(Dissonant(BoolH, RecordH));
  }

  // --- a fixpoint that is no function ---

  const FIX_OF_A_TRUTH: Expr := Fix(Lam("x", If(Var("x"), Lit(Bool(true)), Lit(Bool(true)))))

  /** A fixpoint is typed at any type, but what the machine passes for it is a closure. */
  lemma FixpointGoesWrong(env: Env, arg: Value, st: Value, fuel: nat)
    requires fuel >= 6
    ensures CheckVersus([], 0, Versus("v", Dorian, FIX_OF_A_TRUTH, [])).Ok?
    ensures RunVerse(env, Dorian, FIX_OF_A_TRUTH, arg, st, fuel) == Ended(Broken(Dissonant(BoolH, ClosureH)))
    ensures forall w: World :: !FixesFunctions(w, 0, Versus("v", Dorian, FIX_OF_A_TRUTH, []))
  {
    hide CheckVersus;
    var w := World([], TUnit, TUnit, TUnit, TUnit, false, 0);
    hide HasType;
    FixTyped(w);
    var th := TypableIsAccepted([], 0, Versus("v", Dorian, FIX_OF_A_TRUTH, []), w, TBool);
    FixMeans(Ctx(env, Dorian, arg), BuildTower(Dorian, st), fuel);
    forall w: World, tau ensures !HasType(w.(tied := true), 0, Dorian, [], FIX_OF_A_TRUTH, tau) {
      TruthIsNoFunction(w.(tied := true), tau);
    }
    RunIsMeaning(env, Dorian, FIX_OF_A_TRUTH, arg, st, fuel);
  }

  lemma TruthIsNoFunction(w: World, t: Type)
    requires w.tied
    ensures !HasType(w, 0, Dorian, [], FIX_OF_A_TRUTH, t)
  {
    hide OpHasType, PrimHas, AnswersHave;
    var f, g := FIX_OF_A_TRUTH.f, [] + [Entry("x", t)];
    FixParts(w, 0, Dorian, [], FIX_OF_A_TRUTH, t);
    LamParts(w, 0, Dorian, [], f, Fun(t, t));
    IfParts(w, 0, Dorian, g, f.body, t);
    assert HasType(w, 0, Dorian, g, Var("x"), TBool) <==> t == TBool;
  }

  lemma FixTyped(w: World)
    requires !w.tied
    ensures HasType(w, 0, Dorian, [], FIX_OF_A_TRUTH, TBool)
  {
    hide AnswersHave, OpHasType;
    var g := [] + [Entry("x", TBool)];
    assert HasType(w, 0, Dorian, g, Var("x"), TBool);
    assert HasType(w, 0, Dorian, g, FIX_OF_A_TRUTH.f.body, TBool);
    assert HasType(w, 0, Dorian, [], FIX_OF_A_TRUTH.f, Fun(TBool, TBool));
  }

  lemma FixMeans(ctx: Ctx, L: seq<Layer>, fuel: nat)
    requires fuel >= 6
    ensures Denote(ctx, FIX_OF_A_TRUTH, Empty, L, fuel) == Abort(Dissonant(BoolH, ClosureH))
  {
    hide Kinds;
    var f := FIX_OF_A_TRUTH.f;
    var self := SelfRef(f, Empty);
    var s := Empty.Bind("x", self);
    assert Denote(ctx, Var("x"), s, L, fuel - 4) == Yield(self, L, fuel - 5);
    assert Denote(ctx, f.body, s, L, fuel - 3) == Abort(Dissonant(BoolH, ClosureH));
    assert Denote(ctx, f, Empty, L, fuel - 1) == Yield(Closure("x", f.body, Empty), L, fuel - 2);
    Unfold(ctx, FIX_OF_A_TRUTH, Empty, L, fuel);
    var r := FirstRes(ctx, FIX_OF_A_TRUTH, Empty, L, fuel);
    assert DenoteApply(ctx, r.v, self, L, fuel - 3) == Denote(ctx, f.body, s, L, fuel - 3);
    assert DenoteRest(ctx, FIX_OF_A_TRUTH, Empty, r.v, L, fuel - 3) == DenoteApply(ctx, r.v, self, L, fuel - 3);
  }

  // --- a fixpoint that mentions the name the machine ties its knot with ---

  const ONE: Scalar := F64(1)
  const FIVE: Value := Num(F64(5))
  const NAMED: Expr := App(App(Var("add"), Var("$stretto")), Lit(Num(ONE)))
  const AGAIN: Expr := App(Var("self"), Lit(Bool(false)))
  const TURN: Expr := If(Var("x"), AGAIN, NAMED)
  const KNOT: Expr := Lam("self", Lam("x", TURN))
  const CAPTURE: Expr := App(Lam("$stretto", App(Fix(KNOT), Lit(Bool(true)))), Lit(FIVE))

  lemma CaptureTyped(w: World)
    ensures HasType(w, 0, Dorian, [], CAPTURE, TNum)
  {
    hide HasType;
    var f := Fun(TBool, TNum);
    var g1 := [] + [Entry("$stretto", TNum)];
    var g2 := g1 + [Entry("self", f)];
    var g3 := g2 + [Entry("x", TBool)];
    Leaves(w, g3, f);
    AppWhole(w, 0, Dorian, g3, AGAIN, TNum, TBool);
    AppWhole(w, 0, Dorian, g3, NAMED.f, Fun(TNum, TNum), TNum);
    AppWhole(w, 0, Dorian, g3, NAMED, TNum, TNum);
    IfParts(w, 0, Dorian, g3, TURN, TNum);
    Tied(w, g1, f);
    AppWhole(w, 0, Dorian, g1, App(Fix(KNOT), Lit(Bool(true))), TNum, TBool);
    Sealed(w, TNum);
    AppWhole(w, 0, Dorian, [], CAPTURE, TNum, TNum);
  }

  lemma Leaves(w: World, g: Gamma, f: Type)
    requires |g| == 3 && g[0] == Entry("$stretto", TNum) && g[1] == Entry("self", f) && g[2] == Entry("x", TBool)
    ensures HasType(w, 0, Dorian, g, Var("x"), TBool) && HasType(w, 0, Dorian, g, Var("self"), f)
    ensures HasType(w, 0, Dorian, g, Var("$stretto"), TNum) && HasType(w, 0, Dorian, g, Lit(Num(ONE)), TNum)
    ensures HasType(w, 0, Dorian, g, Lit(Bool(false)), TBool)
    ensures HasType(w, 0, Dorian, g, Var("add"), Fun(TNum, Fun(TNum, TNum)))
  {
    hide AnswersHave, OpHasType;
    var g2, g1 := g[..2], g[..1];
    assert g2[..1] == g1 && g1[..0] == [];
    assert FindEntry(g, "self") == FindEntry(g2, "self") == Some(f);
    assert FindEntry(g, "$stretto") == FindEntry(g2, "$stretto") == FindEntry(g1, "$stretto") == Some(TNum);
    assert FindEntry(g, "add") == FindEntry(g2, "add") == FindEntry(g1, "add") == None;
    assert B.PrimOf("add") == Some(B.Add) && SigOf(B.Add, TUnit) == Fun(TNum, Fun(TNum, TNum));
  }

  lemma Tied(w: World, g: Gamma, f: Type)
    requires f == Fun(TBool, TNum) && HasType(w, 0, Dorian, g + [Entry("self", f)] + [Entry("x", TBool)], TURN, TNum)
    ensures HasType(w, 0, Dorian, g, Fix(KNOT), f) && HasType(w, 0, Dorian, g, Lit(Bool(true)), TBool)
  {
    LamParts(w, 0, Dorian, g + [Entry("self", f)], KNOT.body, f);
    LamParts(w, 0, Dorian, g, KNOT, Fun(f, f));
    FixParts(w, 0, Dorian, g, Fix(KNOT), f);
    LitTyped(w, g, Bool(true));
  }

  lemma LitTyped(w: World, g: Gamma, v: Value)
    ensures HasType(w, 0, Dorian, g, Lit(v), TypeOfValue(v))
  {
  }

  lemma Sealed(w: World, t: Type)
    requires HasType(w, 0, Dorian, [] + [Entry("$stretto", TNum)], CAPTURE.f.body, t)
    ensures HasType(w, 0, Dorian, [], CAPTURE.f, Fun(TNum, t)) && HasType(w, 0, Dorian, [], Lit(FIVE), TNum)
  {
    LamParts(w, 0, Dorian, [], CAPTURE.f, Fun(TNum, t));
    LitTyped(w, [], FIVE);
  }

  // --- what the verse does ---

  lemma AppMeans(ctx: Ctx, f: Expr, a: Expr, s: Scope, L: seq<Layer>, fuel: nat, vf: Value, va: Value, n: nat)
    requires n > 0 && fuel > 0 && Denote(ctx, f, s, L, fuel - 1).Yield?
    requires var r := Denote(ctx, f, s, L, fuel - 1); r == Yield(vf, L, r.left) && r.left > 0 && Denote(ctx, a, s, L, r.left - 1) == Yield(va, L, n)
    ensures Denote(ctx, App(f, a), s, L, fuel) == DenoteApply(ctx, vf, va, L, n - 1)
  {
    hide Kinds, DenoteApply, DenoteForm;
    Unfold(ctx, App(f, a), s, L, fuel);
  }

  lemma LitMeans(ctx: Ctx, v: Value, s: Scope, L: seq<Layer>, fuel: nat)
    requires fuel > 0
    ensures Denote(ctx, Lit(v), s, L, fuel) == Yield(v, L, fuel - 1)
  {
    hide Kinds;
  }

  lemma VarMeans(ctx: Ctx, x: Sym, v: Value, s: Scope, L: seq<Layer>, fuel: nat)
    requires fuel > 0 && LookupVar(ctx.env, s, x) == Some(v)
    ensures Denote(ctx, Var(x), s, L, fuel) == Yield(v, L, fuel - 1)
  {
    hide Kinds, LookupVar;
  }

  lemma LamMeans(ctx: Ctx, x: Sym, b: Expr, s: Scope, L: seq<Layer>, fuel: nat)
    requires fuel > 0
    ensures Denote(ctx, Lam(x, b), s, L, fuel) == Yield(Closure(x, b, s), L, fuel - 1)
  {
    hide Kinds;
  }

  /** The fixpoint in a scope yields the inner function, closed over the fixpoint's own scope. */
  lemma KnotMeans(ctx: Ctx, s: Scope, L: seq<Layer>, fuel: nat)
    requires fuel >= 5
    ensures Denote(ctx, Fix(KNOT), s, L, fuel) == Yield(Closure("x", TURN, s.Bind("self", SelfRef(KNOT, s))), L, fuel - 4)
  {
    hide Kinds, DenoteForm, Denote;
    LamMeans(ctx, "self", KNOT.body, s, L, fuel - 1);
    LamMeans(ctx, "x", TURN, s.Bind("self", SelfRef(KNOT, s)), L, fuel - 3);
    Unfold(ctx, Fix(KNOT), s, L, fuel);
    var f := Closure("self", KNOT.body, s);
    assert DenoteRest(ctx, Fix(KNOT), s, f, L, fuel - 3) == DenoteApply(ctx, f, SelfRef(KNOT, s), L, fuel - 3);
  }

  /** A turn on `false` adds whatever the name is bound to. */
  lemma LastTurn(ctx: Ctx, s: Scope, b: bool, L: seq<Layer>, fuel: nat)
    requires fuel >= 13 && s.Lookup("$stretto") == Some(Bool(b)) && s.Lookup("x") == Some(Bool(false)) && s.Lookup("add") == None
    ensures Denote(ctx, TURN, s, L, fuel) == Abort(Dissonant(NumH, BoolH))
  {
    hide Kinds, DenoteForm, Denote;
    VarMeans(ctx, "x", Bool(false), s, L, fuel - 1);
    Unfold(ctx, TURN, s, L, fuel);
    assert DenoteRest(ctx, TURN, s, Bool(false), L, fuel - 3) == Denote(ctx, NAMED, s, L, fuel - 3);
    AddsNoTruth(ctx, s, b, L, fuel - 3);
  }

  lemma AddsNoTruth(ctx: Ctx, s: Scope, b: bool, L: seq<Layer>, fuel: nat)
    requires fuel >= 10 && s.Lookup("$stretto") == Some(Bool(b)) && s.Lookup("add") == None
    ensures Denote(ctx, NAMED, s, L, fuel) == Abort(Dissonant(NumH, BoolH))
  {
    hide Kinds, DenoteForm, Denote;
    VarMeans(ctx, "add", Builtin("add", []), s, L, fuel - 2);
    VarMeans(ctx, "$stretto", Bool(b), s, L, fuel - 4);
    AppMeans(ctx, Var("add"), Var("$stretto"), s, L, fuel - 1, Builtin("add", []), Bool(b), fuel - 5);
    var add1 := Builtin("add", [Bool(b)]);
    assert [] + [Bool(b)] == [Bool(b)];
    assert DenoteApply(ctx, Builtin("add", []), Bool(b), L, fuel - 6) == Yield(add1, L, fuel - 6);
    LitMeans(ctx, Num(ONE), s, L, fuel - 7);
    AppMeans(ctx, NAMED.f, NAMED.a, s, L, fuel, add1, Num(ONE), fuel - 8);
    assert [Bool(b)] + [Num(ONE)] == [Bool(b), Num(ONE)];
    assert B.Call(ctx.env.phys, B.Add, [Bool(b), Num(ONE)]) == B.Fail(Dissonant(NumH, BoolH));
  }

  const INNER: Expr := App(Fix(KNOT), Var("$stretto"))

  /** The knot, re-entered on `false`, runs its operand again where the name means `false`. */
  lemma Reenters(ctx: Ctx, s: Scope, L: seq<Layer>, fuel: nat)
    requires fuel >= 21 && s.Lookup("$stretto") == Some(Bool(false)) && s.Lookup("add") == None
    ensures Denote(ctx, INNER, s, L, fuel) == Abort(Dissonant(NumH, BoolH))
  {
    hide Kinds, DenoteForm, Denote;
    var s1 := s.Bind("self", SelfRef(KNOT, s));
    KnotMeans(ctx, s, L, fuel - 1);
    VarMeans(ctx, "$stretto", Bool(false), s, L, fuel - 6);
    AppMeans(ctx, Fix(KNOT), Var("$stretto"), s, L, fuel, Closure("x", TURN, s1), Bool(false), fuel - 7);
    LastTurn(ctx, s1.Bind("x", Bool(false)), false, L, fuel - 8);
  }

  /** The first turn, on `true`, calls the knot on `false`. */
  lemma FirstTurn(ctx: Ctx, s: Scope, L: seq<Layer>, fuel: nat)
    requires fuel >= 29 && s.Lookup("add") == None
    ensures var s2 := s.Bind("self", SelfRef(KNOT, s)).Bind("x", Bool(true));
            Denote(ctx, TURN, s2, L, fuel) == Abort(Dissonant(NumH, BoolH))
  {
    hide Kinds, DenoteForm, Denote;
    var s2 := s.Bind("self", SelfRef(KNOT, s)).Bind("x", Bool(true));
    VarMeans(ctx, "x", Bool(true), s2, L, fuel - 1);
    Unfold(ctx, TURN, s2, L, fuel);
    assert DenoteRest(ctx, TURN, s2, Bool(true), L, fuel - 3) == Denote(ctx, AGAIN, s2, L, fuel - 3);
    assert s2.next.Lookup("self") == Some(SelfRef(KNOT, s));
    VarMeans(ctx, "self", SelfRef(KNOT, s), s2, L, fuel - 4);
    LitMeans(ctx, Bool(false), s2, L, fuel - 6);
    AppMeans(ctx, Var("self"), Lit(Bool(false)), s2, L, fuel - 3, SelfRef(KNOT, s), Bool(false), fuel - 7);
    Reenters(ctx, s.Bind("$stretto", Bool(false)), L, fuel - 8);
  }

  /** A fixpoint of functions, accepted even when that is asked for: the closure the machine
      passes for it binds the name its operand reads, which then is a truth and no number. */
  lemma CaptureGoesWrong(env: Env, arg: Value, st: Value, fuel: nat)
    requires fuel >= 42
    ensures CheckVersus([], 0, Versus("v", Dorian, CAPTURE, [])).Ok?
    ensures FixesFunctions(World([], TUnit, TUnit, TUnit, TUnit, true, 0), 0, Versus("v", Dorian, CAPTURE, []))
    ensures RunVerse(env, Dorian, CAPTURE, arg, st, fuel) == Ended(Broken(Dissonant(NumH, BoolH)))
  {
    hide CheckVersus, HasType, Kinds, DenoteForm, Denote;
    var w := World([], TUnit, TUnit, TUnit, TUnit, true, 0);
    CaptureTyped(w);
    assert w.(tied := true) == w;
    var th := TypableIsAccepted([], 0, Versus("v", Dorian, CAPTURE, []), w, TNum);
    var ctx, L, s := Ctx(env, Dorian, arg), BuildTower(Dorian, st), Empty.Bind("$stretto", FIVE);
    var body := App(Fix(KNOT), Lit(Bool(true)));
    LamMeans(ctx, "$stretto", body, Empty, L, fuel - 1);
    LitMeans(ctx, FIVE, Empty, L, fuel - 3);
    AppMeans(ctx, CAPTURE.f, Lit(FIVE), Empty, L, fuel, Closure("$stretto", body, Empty), FIVE, fuel - 4);
    KnotMeans(ctx, s, L, fuel - 6);
    LitMeans(ctx, Bool(true), s, L, fuel - 11);
    var f := Closure("x", TURN, s.Bind("self", SelfRef(KNOT, s)));
    AppMeans(ctx, Fix(KNOT), Lit(Bool(true)), s, L, fuel - 5, f, Bool(true), fuel - 12);
    FirstTurn(ctx, s, L, fuel - 13);
    RunIsMeaning(env, Dorian, CAPTURE, arg, st, fuel);
  }

  // --- two predicates on a variable that is never resolved ---

  const NAMES_CORPUS: Expr := Var("corpus")
  const WITH_ID: Expr := App(NAMES_CORPUS, Lit(Num(ONE)))
  const WITH_GENUS: Expr := App(WITH_ID, Arg)
  const WITH_MASS: Expr := App(WITH_GENUS, Lit(Num(ONE)))
  const BODY: Expr := App(WITH_MASS, Lit(Num(ONE)))

  /** `mitte arg`, then `amen (corpus 1 arg 1 1)`. */
  const TWO_MINDS: Expr := Bind(Hypomixolydian, Mitte(Arg), "_", Return(Hypomixolydian, BODY))

  /** The input is to be a command or a plan, and a genus or a string; as nothing resolves its
      type, both pass, and whatever the input is the run goes wrong. */
  lemma TwoMindsGoWrong(env: Env, arg: Value, st: Value, fuel: nat)
    requires fuel >= 24
    ensures var r := CheckVersus([], 0, Versus("v", Hypomixolydian, TWO_MINDS, [])); r.Ok? && !Unanimous(r.val)
    ensures RunVerse(env, Hypomixolydian, TWO_MINDS, arg, st, fuel)
         == Ended(Broken(Dissonant(if arg.CmdV? || arg.PlanV? then GenusH else CmdH, arg.Ty())))
    ensures S.Shaped(Hypomixolydian, TWO_MINDS)
  {
    hide CheckVersus, Unanimous, S.Shaped, Denote, RunVerse, BuildTower;
    TwoMindsAccepted();
    TwoMindsShaped();
    TwoMindsMean(Ctx(env, Hypomixolydian, arg), fuel);
    TowerOfWriter(st);
    RunIsMeaning(env, Hypomixolydian, TWO_MINDS, arg, st, fuel);
  }

  lemma TwoMindsShaped()
    ensures S.Shaped(Hypomixolydian, TWO_MINDS)
  {
  }

  lemma TowerOfWriter(st: Value)
    ensures BuildTower(Hypomixolydian, st) == [WriterL([])]
  {
    assert [WriterK][1..] == [] && Seed([], st) == [];
  }

  // --- how it is checked ---

  lemma {:induction false} GroundWalks(st: Subst, v: nat, t: Type)
    requires Acyclic(st) && Ground(t)
    ensures InRange(|st|, t) && Walk(st, t) == t && !Occurs(st, v, t)
  {
    if t.Fun? {
      GroundWalks(st, v, t.a);
      GroundWalks(st, v, t.r);
    }
  }

  /** An application whose parameter type unifies with its argument's, and whose result type is no
      variable. */
  lemma AppInfers(w: World, mode: Mode, g: Gamma, f: Expr, a: Expr, c: State, c1: State, tf: Type, c2: State, ta: Type,
          p: Type, r: Type, st: Subst)
    requires Ready(w, g, c) && Infer(w, 0, mode, g, f, c) == Ok((tf, c1))
    requires Ready(w, g, c1) && Infer(w, 0, mode, g, a, c1) == Ok((ta, c2))
    requires var st3 := c2.st + [None];
             && Acyclic(st3) && InRange(|st3|, tf) && Walk(st3, tf) == Fun(p, r) && InRange(|st3|, ta)
             && InRange(|st3|, p) && Unify(st3, p, ta) == Solved(st)
    requires var n := |c2.st|;
             && Acyclic(st) && |st| == n + 1 && st[n].None? && InRange(|st|, r) && !r.TVar? && !Occurs(st, n, r)
    ensures Infer(w, 0, mode, g, App(f, a), c) == Ok((TVar(|c2.st|), State(st[|c2.st| := Some(r)], c2.preds)))
  {
    hide Acyclic, Infer, Occurs, WorldIn, GammaIn, Extends;
    var n, st3 := |c2.st|, c2.st + [None];
    assert Walk(st3, Fun(ta, TVar(n))) == Fun(ta, TVar(n));
    assert Walk(st, r) == r && Walk(st, TVar(n)) == TVar(n);
    assert Unify(st, r, TVar(n)) == BindVar(st, n, r);
    assert Unify(st3, tf, Fun(ta, TVar(n))) == Solved(st[n := Some(r)]);
    AppUnfolds(w, mode, g, f, a, c);
  }

  lemma AppUnfolds(w: World, mode: Mode, g: Gamma, f: Expr, a: Expr, c: State)
    requires Ready(w, g, c)
    ensures Infer(w, 0, mode, g, App(f, a), c) == InferFunctional(w, 0, mode, g, App(f, a), c)
  {
    hide InferFunctional, Acyclic;
  }

  const OWN: World := OwnWorld([])
  const SCOPE: Gamma := [] + [Entry("_", TUnit)]
  const ASKED: seq<Pred> := [Pred(TVar(0), CMD_OR_PLAN, CmdH), Pred(TVar(4), GENUS_OR_STR, GenusH)]
  const LAST: Type := Fun(TNum, TCorpus)
  const REST: Type := Fun(TNum, LAST)
  const FIVE_OPEN: Subst := [None, None, None, None, None]
  const WITH_ID_ST: Subst := FIVE_OPEN + [Some(Fun(TVar(4), REST))]
  const GENUS_IS_INPUT: Subst := [None, None, None, None, Some(TVar(0)), Some(Fun(TVar(4), REST))]
  const WITH_GENUS_ST: Subst := GENUS_IS_INPUT + [Some(REST)]
  const WITH_MASS_ST: Subst := WITH_GENUS_ST + [Some(LAST)]
  const BODY_ST: Subst := WITH_MASS_ST + [Some(TCorpus)]

  lemma MitteInfers()
    ensures Ready(OWN, [], START)
    ensures InferStmt(OWN, 0, Hypomixolydian, [], Mitte(Arg), START) == Ok(Stmt(TVar(0), TUnit, State(START.st, [ASKED[0]])))
    ensures Ready(OWN, SCOPE, State(START.st, [ASKED[0]]))
  {
    hide Acyclic;
    StartReady([]);
    assert [] + [ASKED[0]] == [ASKED[0]];
  }

  lemma CorpusSig(c: State)
    requires c == State(START.st, [ASKED[0]]) && Good(c)
    ensures BuiltinType(B.Corpus, c) == (Fun(TNum, Fun(TVar(4), REST)), State(FIVE_OPEN, ASKED))
    ensures Grows(c, State(FIVE_OPEN, ASKED))
  {
    hide Acyclic;
    assert START.st + [None] == FIVE_OPEN && [ASKED[0]] + [ASKED[1]] == ASKED;
    var r := BuiltinType(B.Corpus, c);
    assert r.1.st == FIVE_OPEN && r.1.preds == ASKED;
  }

  lemma CorpusInfers()
    ensures Ready(OWN, SCOPE, State(START.st, [ASKED[0]]))
    ensures Infer(OWN, 0, Hypomixolydian, SCOPE, NAMES_CORPUS, State(START.st, [ASKED[0]]))
         == Ok((Fun(TNum, Fun(TVar(4), REST)), State(FIVE_OPEN, ASKED)))
    ensures Ready(OWN, SCOPE, State(FIVE_OPEN, ASKED))
  {
    hide Acyclic, BuiltinType, Grows, GammaIn, WorldIn, Good;
    MitteInfers();
    var c := State(START.st, [ASKED[0]]);
    CorpusSig(c);
    assert SCOPE[..0] == [];
    assert FindEntry(SCOPE, "corpus") == None;
    CorpusIsBuiltin();
    GrowsOn(OWN, SCOPE, c, State(FIVE_OPEN, ASKED));
  }

  lemma OneInfers(c: State)
    requires Ready(OWN, SCOPE, c)
    ensures Infer(OWN, 0, Hypomixolydian, SCOPE, Lit(Num(ONE)), c) == Ok((TNum, c))
    ensures Infer(OWN, 0, Hypomixolydian, SCOPE, Arg, c) == Ok((TVar(0), c))
  {
    hide Acyclic;
  }

  lemma CorpusIsBuiltin()
    ensures B.PrimOf("corpus") == Some(B.Corpus)
  {
  }

  /** The state after an application, ready for the next. */
  ghost predicate Reached(e: Expr, t: Type, c: State) {
    && Ready(OWN, SCOPE, START_ASKED)
    && Infer(OWN, 0, Hypomixolydian, SCOPE, e, START_ASKED) == Ok((t, c))
    && Ready(OWN, SCOPE, c) && InRange(|c.st|, t)
  }

  const START_ASKED: State := State(START.st, [ASKED[0]])

  lemma Reaches(e: Expr, t: Type, c: State)
    requires Ready(OWN, SCOPE, START_ASKED)
    requires Infer(OWN, 0, Hypomixolydian, SCOPE, e, START_ASKED) == Ok((t, c))
    ensures Reached(e, t, c)
  {
    hide Infer, Acyclic, GammaIn, WorldIn;
    GrowsOn(OWN, SCOPE, START_ASKED, c);
  }

  lemma WithId()
    ensures Reached(WITH_ID, TVar(5), State(WITH_ID_ST, ASKED))
  {
    hide Infer, Acyclic, GammaIn, WorldIn, Extends;
    CorpusInfers();
    var c := State(FIVE_OPEN, ASKED);
    OneInfers(c);
    FreshAcyclic(c.st);
    var st := c.st + [None];
    assert Walk(st, TNum) == TNum && Unify(st, TNum, TNum) == Solved(st);
    GroundWalks(st, 5, REST);
    assert Walk(st, TVar(4)) == TVar(4) && !Occurs(st, 5, TVar(4)) && !Occurs(st, 5, REST);
    assert !Occurs(st, 5, Fun(TVar(4), REST));
    AppInfers(OWN, Hypomixolydian, SCOPE, NAMES_CORPUS, Lit(Num(ONE)), START_ASKED, c, Fun(TNum, Fun(TVar(4), REST)), c, TNum,
              TNum, Fun(TVar(4), REST), st);
    assert st[5 := Some(Fun(TVar(4), REST))] == WITH_ID_ST;
    Reaches(WITH_ID, TVar(5), State(WITH_ID_ST, ASKED));
  }

  lemma WithGenus()
    ensures Reached(WITH_GENUS, TVar(6), State(WITH_GENUS_ST, ASKED))
  {
    hide Infer, Acyclic, GammaIn, WorldIn, Extends;
    WithId();
    var c := State(WITH_ID_ST, ASKED);
    OneInfers(c);
    FreshAcyclic(c.st);
    var st := c.st + [None];
    assert Walk(st, TVar(5)) == Fun(TVar(4), REST);
    assert Walk(st, TVar(4)) == TVar(4) && Walk(st, TVar(0)) == TVar(0) && !Occurs(st, 4, TVar(0));
    var st' := st[4 := Some(TVar(0))];
    assert Unify(st, TVar(4), TVar(0)) == Solved(st');
    GroundWalks(st', 6, REST);
    AppInfers(OWN, Hypomixolydian, SCOPE, WITH_ID, Arg, START_ASKED, c, TVar(5), c, TVar(0), TVar(4), REST, st');
    assert st'[6 := Some(REST)] == WITH_GENUS_ST;
    Reaches(WITH_GENUS, TVar(6), State(WITH_GENUS_ST, ASKED));
  }

  /** An application of a function of a number to a number. */
  lemma NumberApplied(f: Expr, i: nat, r: Type, c: State)
    requires Reached(f, TVar(i), c) && i < |c.st| && c.st[i] == Some(Fun(TNum, r)) && Ground(r) && c.preds == ASKED
    ensures Reached(App(f, Lit(Num(ONE))), TVar(|c.st|), State(c.st + [Some(r)], ASKED))
  {
    hide Infer, Acyclic, GammaIn, WorldIn, Extends;
    OneInfers(c);
    FreshAcyclic(c.st);
    var st := c.st + [None];
    GroundWalks(st, |c.st|, r);
    assert Walk(st, Fun(TNum, r)) == Fun(TNum, r) && Walk(st, TVar(i)) == Walk(st, Fun(TNum, r));
    assert Walk(st, TNum) == TNum && Unify(st, TNum, TNum) == Solved(st);
    AppInfers(OWN, Hypomixolydian, SCOPE, f, Lit(Num(ONE)), START_ASKED, c, TVar(i), c, TNum, TNum, r, st);
    assert st[|c.st| := Some(r)] == c.st + [Some(r)];
    Reaches(App(f, Lit(Num(ONE))), TVar(|c.st|), State(c.st + [Some(r)], ASKED));
  }

  lemma BodyInfers()
    ensures Reached(BODY, TVar(8), State(BODY_ST, ASKED))
  {
    hide Reached;
    WithGenus();
    NumberApplied(WITH_GENUS, 6, LAST, State(WITH_GENUS_ST, ASKED));
    NumberApplied(WITH_MASS, 7, TCorpus, State(WITH_MASS_ST, ASKED));
  }

  const FINAL_ST: Subst := BODY_ST[3 := Some(TCorpus)] + [None]

  lemma ReturnInfers()
    ensures Ready(OWN, SCOPE, START_ASKED)
    ensures Infer(OWN, 0, Hypomixolydian, SCOPE, Return(Hypomixolydian, BODY), START_ASKED)
         == Ok((TVar(9), State(FINAL_ST, ASKED)))
    ensures Good(State(FINAL_ST, ASKED))
  {
    hide Infer, Acyclic, GammaIn, WorldIn, Extends;
    BodyInfers();
    var st := BODY_ST;
    assert Walk(st, TCorpus) == TCorpus && Walk(st, TVar(8)) == TCorpus && Walk(st, TVar(3)) == TVar(3) && !Occurs(st, 3, TCorpus);
    assert Unify(st, TVar(8), TVar(3)) == Solved(st[3 := Some(TCorpus)]);
    var c := State(st[3 := Some(TCorpus)], ASKED);
    assert Expect(OWN, 0, Hypomixolydian, SCOPE, BODY, OWN.result, START_ASKED) == Ok((TVar(8), c));
    assert Fresh(c) == (TVar(9), State(FINAL_ST, ASKED));
    ReturnUnfolds(START_ASKED);
  }

  lemma ReturnUnfolds(c: State)
    requires Ready(OWN, SCOPE, c)
    ensures Infer(OWN, 0, Hypomixolydian, SCOPE, Return(Hypomixolydian, BODY), c)
         == InferSequential(OWN, 0, Hypomixolydian, SCOPE, Return(Hypomixolydian, BODY), c)
  {
    hide InferSequential, Acyclic;
  }

  lemma TwoMindsInfers()
    ensures Ready(OWN, [], START)
    ensures Infer(OWN, 0, Hypomixolydian, [], TWO_MINDS, START) == Ok((TVar(9), State(FINAL_ST, ASKED)))
  {
    hide InferFunctional, InferOp, Acyclic, InferStmt;
    MitteInfers();
    ReturnInfers();
  }

  lemma TwoMindsAccepted()
    ensures var r := CheckVersus([], 0, Versus("v", Hypomixolydian, TWO_MINDS, [])); r.Ok? && !Unanimous(r.val)
  {
    hide Infer, Acyclic;
    TwoMindsInfers();
    ReturnInfers();
    var c := State(FINAL_ST, ASKED);
    assert Walk(c.st, TVar(0)) == TVar(0) == Walk(c.st, TVar(4));
    assert forall i :: 0 <= i < |c.preds| ==> PredPasses(c.st, c.preds[i]);
    assert !AskAlike(c, c.preds[0], c.preds[1]) by { assert CMD_OR_PLAN[0] != GENUS_OR_STR[0]; }
  }

  // --- how it runs ---

  lemma TwoMindsMean(ctx: Ctx, fuel: nat)
    requires fuel >= 24
    ensures Denote(ctx, TWO_MINDS, Empty, [WriterL([])], fuel)
         == Abort(Dissonant(if ctx.arg.CmdV? || ctx.arg.PlanV? then GenusH else CmdH, ctx.arg.Ty()))
  {
    hide Denote, DenoteForm;
    var L := [WriterL([])];
    MitteMeans(ctx, fuel - 1);
    Unfold(ctx, TWO_MINDS, Empty, L, fuel);
    if ctx.arg.CmdV? || ctx.arg.PlanV? {
      ReturnMeans(ctx, Empty.Bind("_", Unit), Denote(ctx, Mitte(Arg), Empty, L, fuel - 1).L, fuel - 5);
    }
  }

  lemma MitteMeans(ctx: Ctx, fuel: nat)
    requires fuel >= 4
    ensures var r := Denote(ctx, Mitte(Arg), Empty, [WriterL([])], fuel);
            if ctx.arg.CmdV? || ctx.arg.PlanV? then r.Yield? && r.left == fuel - 3 && r.v == Unit
            else r == Abort(Dissonant(CmdH, ctx.arg.Ty()))
  {
    hide Denote, DenoteForm;
    var L := [WriterL([])];
    assert Kinds(L) == [WriterK] && SlotOf(Mitte(Arg), Kinds(L)) == Some(0);
    ArgMeans(ctx, Empty, L, fuel - 1);
    Unfold(ctx, Mitte(Arg), Empty, L, fuel);
  }

  lemma ArgMeans(ctx: Ctx, s: Scope, L: seq<Layer>, fuel: nat)
    requires fuel > 0
    ensures Denote(ctx, Arg, s, L, fuel) == Yield(ctx.arg, L, fuel - 1)
  {
    hide Kinds;
  }

  lemma ReturnMeans(ctx: Ctx, s: Scope, L: seq<Layer>, fuel: nat)
    requires fuel >= 19 && s.Lookup("corpus") == None && (ctx.arg.CmdV? || ctx.arg.PlanV?)
    ensures Denote(ctx, Return(Hypomixolydian, BODY), s, L, fuel) == Abort(Dissonant(GenusH, ctx.arg.Ty()))
  {
    hide Denote, DenoteForm, Kinds;
    BodyMeans(ctx, s, L, fuel - 1);
    Unfold(ctx, Return(Hypomixolydian, BODY), s, L, fuel);
  }

  /** A builtin still short of arguments keeps what it is given. */
  lemma Gathers(ctx: Ctx, f: Expr, a: Expr, s: Scope, L: seq<Layer>, fuel: nat, args: seq<Value>, v: Value, n: nat)
    requires n > 1 && fuel > 0 && |args| < 3 && Denote(ctx, f, s, L, fuel - 1).Yield?
    requires var r := Denote(ctx, f, s, L, fuel - 1);
             && r == Yield(Builtin("corpus", args), L, r.left) && r.left > 0 && Denote(ctx, a, s, L, r.left - 1) == Yield(v, L, n)
    ensures Denote(ctx, App(f, a), s, L, fuel) == Yield(Builtin("corpus", args + [v]), L, n - 1)
  {
    hide Denote, Kinds, B.PrimOf;
    CorpusIsBuiltin();
    AppMeans(ctx, f, a, s, L, fuel, Builtin("corpus", args), v, n);
  }

  lemma NoGenus(ctx: Ctx, held: seq<Value>, L: seq<Layer>, fuel: nat)
    requires held == [Num(ONE), ctx.arg, Num(ONE)] && (ctx.arg.CmdV? || ctx.arg.PlanV?)
    ensures DenoteApply(ctx, Builtin("corpus", held), Num(ONE), L, fuel) == Abort(Dissonant(GenusH, ctx.arg.Ty()))
  {
    hide Denote, B.PrimOf;
    CorpusIsBuiltin();
    var all := held + [Num(ONE)];
    assert all == [Num(ONE), ctx.arg, Num(ONE), Num(ONE)];
    assert B.Call(ctx.env.phys, B.Corpus, all) == B.Fail(Dissonant(GenusH, ctx.arg.Ty()));
  }

  lemma BodyMeans(ctx: Ctx, s: Scope, L: seq<Layer>, fuel: nat)
    requires fuel >= 18 && s.Lookup("corpus") == None && (ctx.arg.CmdV? || ctx.arg.PlanV?)
    ensures Denote(ctx, BODY, s, L, fuel) == Abort(Dissonant(GenusH, ctx.arg.Ty()))
  {
    hide Denote, DenoteApply, Kinds, B.PrimOf;
    CorpusIsBuiltin();
    var one, arg := Num(ONE), ctx.arg;
    VarMeans(ctx, "corpus", Builtin("corpus", []), s, L, fuel - 4);
    LitMeans(ctx, one, s, L, fuel - 6);
    Gathers(ctx, NAMES_CORPUS, Lit(one), s, L, fuel - 3, [], one, fuel - 7);
    ArgMeans(ctx, s, L, fuel - 9);
    Gathers(ctx, WITH_ID, Arg, s, L, fuel - 2, [] + [one], arg, fuel - 10);
    LitMeans(ctx, one, s, L, fuel - 12);
    Gathers(ctx, WITH_GENUS, Lit(one), s, L, fuel - 1, [] + [one] + [arg], one, fuel - 13);
    LitMeans(ctx, one, s, L, fuel - 15);
    var held := [] + [one] + [arg] + [one];
    AppMeans(ctx, WITH_MASS, Lit(one), s, L, fuel, Builtin("corpus", held), one, fuel - 16);
    NoGenus(ctx, held, L, fuel - 17);
  }
}
