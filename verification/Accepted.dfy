/** What acceptance by the checker buys at run time. */
module Accepted {
  import opened Core
  import opened Machine
  import opened Meaning
  import opened Unification
  import opened Inference
  import opened Typing
  import opened Verses
  import opened Adequacy
  import opened TypedValues
  import opened Soundness
  import opened Syntax
  import opened Fixpoints
  import opened Principal
  import opened Closings
  import opened Assignment
  import B = Builtins

  /** The driver's view of a run of a tower of `n` layers that went right: no type error, no
      unconsecrated commit and no unbound name; what was thrown, returned and left in a topmost
      cell that is not dark has its type. */
  ghost predicate WentRight(w: World, n: nat, tau: Type, e: Ending) {
    match e
    case Cadence(o) =>
      && o.value.Some? && (HasV(w, o.value.value, tau) || HasV(w, o.value.value, w.result))
      && (o.state == Unit || n <= w.dark || HasV(w, o.state, w.state))
    case Broken(d) => Excused(d) && (d.User? ==> HasV(w, d.v, w.throw))
    case Panic => false
  }

  /** The seeded tower fits the world exactly when every cell is typed or dark. The top cell, where
      the mode has one, holds the seed and one below it starts as an empty record. */
  lemma SeededTower(w: World, mode: Mode, st: Value)
    ensures HasL(w, BuildTower(mode, st))
       <==> match mode
              case Lydian => w.dark >= 1 || HasV(w, st, w.state)
              case Hypolydian => w.dark >= 2 || (w.dark == 1 && HasV(w, st, w.state))
              case _ => true
  {
    hide HasV;
    Towers(mode, st);
    EmptyIsNoRecord(w);
    if mode.Hypolydian? {
      assert BuildTower(mode, st)[0].StateL? && BuildTower(mode, st)[1].StateL?;
    } else if mode.Lydian? {
      assert BuildTower(mode, st)[0].cell == st;
    }
  }

  lemma EmptyIsNoRecord(w: World)
    ensures !HasV(w, EMPTY_STATE, w.state)
  {
  }

  lemma Towers(mode: Mode, st: Value)
    ensures |mode.Tower()| == |BuildTower(mode, st)|
    ensures mode.Lydian? ==> BuildTower(mode, st) == [StateL(st)]
    ensures mode.Hypolydian? ==> BuildTower(mode, st) == [StateL(st), StateL(EMPTY_STATE)]
    ensures !mode.Lydian? && !mode.Hypolydian? ==> forall i :: 0 <= i < |BuildTower(mode, st)| ==> !BuildTower(mode, st)[i].StateL?
  {
    var ks := mode.Tower();
    if |ks| == 1 {
      assert ks[1..] == [];
      assert Seed([], st) == [] && Seed([], EMPTY_STATE) == [];
    } else {
      assert ks[1..] == [ks[1]] && [ks[1]][1..] == [];
      assert Seed([], st) == [] && Seed([], EMPTY_STATE) == [];
      assert |Seed([ks[1]], st)| == 1 && Seed([StateK], EMPTY_STATE) == [StateL(EMPTY_STATE)];
    }
  }

  lemma ObservedRight(w: World, n: nat, tau: Type, r: Res)
    requires HasR(w, tau, r) && !r.Out? && (r.Yield? || r.Halted? ==> |r.L| == n)
    ensures WentRight(w, n, tau, Observed(r))
  {
    hide HasV;
    if r.Yield? || r.Halted? {
      if !r.L[0].StateL? { NoCell(r.L); }
    }
  }

  lemma {:induction false} NoCell(L: seq<Layer>)
    requires forall i :: 0 <= i < |L| ==> !L[i].StateL?
    ensures TopState(L) == Unit
  {
    if L != [] { NoCell(L[1..]); }
  }

  /** The types a closing gives the verse, where fixpoints are of functions and the lowest `dark`
      cells are untyped. */
  function RunWorld(fugues: seq<Fugue>, th: seq<Type>, dark: nat): World {
    SubW(th, OwnWorld(fugues)).(tied := true, dark := dark)
  }

  /** The verse has a typing that takes fixpoints of functions only. */
  ghost predicate FixesFunctions(w: World, lv: nat, v: Versus) {
    exists tau :: HasType(w.(tied := true), lv, v.mode, [], v.body, tau)
  }

  /** A closing of the checker's final state that the run's input and cells fit and that takes
      fixpoints of functions. */
  ghost predicate Fair(fugues: seq<Fugue>, lv: nat, v: Versus, th: seq<Type>, dark: nat, arg: Value, st: Value) {
    var w := RunWorld(fugues, th, dark);
    && CheckVersus(fugues, lv, v).Ok? && Closes(th, CheckVersus(fugues, lv, v).val)
    && HasV(w, arg, w.arg) && HasL(w, BuildTower(v.mode, st))
    && ((FixFree(v.body) && FixFreeProgram(fugues)) || FixesFunctions(w, lv, v))
  }

  /** The run ends right at the closing, if it ends: where the `dark` cells were not read at all with
      as many dark, and else perhaps with fewer. */
  ghost predicate GoesRight(fugues: seq<Fugue>, lv: nat, v: Versus, th: seq<Type>, dark: nat, run: Run) {
    run.Ended? ==> exists d: nat, tau ::
      && d <= dark && (Reads(RunWorld(fugues, th, dark), lv, |v.mode.Tower()|, v.body) ==> d == dark)
      && HasType(RunWorld(fugues, th, d), lv, v.mode, [], v.body, tau)
      && WentRight(RunWorld(fugues, th, d), |v.mode.Tower()|, tau, run.e)
  }

  /** An accepted verse does not go wrong: at every closing of the state the checker ends in that
      takes fixpoints of functions, on an argument of the input type, for every budget, from
      every tower whose cells are typed but for the lowest `dark`, if no `lege` stands where it
      could reach one of those before it is written. There is such a closing only if the final
      state is unanimous. The parser builds no fixpoints at all. */
  lemma AcceptedVersesDoNotGoWrong(fugues: seq<Fugue>, lv: nat, v: Versus, dark: nat, phys: Physics,
          arg: Value, st: Value, fuel: nat)
    requires CheckVersus(fugues, lv, v).Ok? && Unanimous(CheckVersus(fugues, lv, v).val)
    requires FitProgram(fugues) && WellFormed(Knotted(fugues), v.body)
    requires Careful(RunWorld(fugues, [], dark), lv, |v.mode.Tower()|, v.body)
    ensures exists th :: Closes(th, CheckVersus(fugues, lv, v).val)
    ensures forall th :: Fair(fugues, lv, v, th, dark, arg, st) ==>
              GoesRight(fugues, lv, v, th, dark, RunVerse(EnvOf(fugues, phys), v.mode, v.body, arg, st, fuel))
  {
    hide CheckVersus, Closes, Unanimous, Fair, GoesRight, Careful, RunVerse, FitProgram, WellFormed, Knotted;
    AcceptedIsClosable(fugues, lv, v);
    forall th | Fair(fugues, lv, v, th, dark, arg, st)
      ensures GoesRight(fugues, lv, v, th, dark, RunVerse(EnvOf(fugues, phys), v.mode, v.body, arg, st, fuel))
    {
      FairGoesRight(fugues, lv, v, th, dark, phys, arg, st, fuel);
    }
  }

  lemma FairGoesRight(fugues: seq<Fugue>, lv: nat, v: Versus, th: seq<Type>, dark: nat, phys: Physics,
          arg: Value, st: Value, fuel: nat)
    requires Fair(fugues, lv, v, th, dark, arg, st)
    requires FitProgram(fugues) && WellFormed(Knotted(fugues), v.body)
    requires Careful(RunWorld(fugues, [], dark), lv, |v.mode.Tower()|, v.body)
    ensures GoesRight(fugues, lv, v, th, dark, RunVerse(EnvOf(fugues, phys), v.mode, v.body, arg, st, fuel))
  {
    hide CheckVersus, Closes, OwnWorld, Denote, HasType, HasV, HasL, HasR, FitProgram, WellFormed, Knotted, RunVerse, WentRight, Observed, Reads, Careful;
    var w, env := RunWorld(fugues, th, dark), EnvOf(fugues, phys);
    var n := |v.mode.Tower()|;
    if FixFree(v.body) && FixFreeProgram(fugues) { FixFreeFixesFunctions(fugues, lv, v, th, dark); }
    var tau :| HasType(w.(tied := true), lv, v.mode, [], v.body, tau);
    assert w.(tied := true) == w;
    var ctx := Ctx(env, v.mode, arg);
    OwnFugues(fugues, th, dark);
    EnvPhys(fugues, phys);
    Towers(v.mode, st);
    RunIsMeaning(env, v.mode, v.body, arg, st, fuel);
    SameCare(w, RunWorld(fugues, [], dark), lv, n, v.body);
    var d: nat, r := dark, Meant(env, v.mode, v.body, arg, st, fuel);
    if Reads(w, lv, n, v.body) {
      SoundDenote(ctx, w, lv, v.mode, [], v.body, tau, Empty, BuildTower(v.mode, st), fuel);
    } else {
      SoundCareful(ctx, w, lv, v.mode, [], v.body, tau, Empty, BuildTower(v.mode, st), fuel);
      var d': nat :| d' <= w.dark && HasR(w.(dark := d'), tau, r);
      d := d';
    }
    var wd := RunWorld(fugues, th, d);
    assert wd == w.(dark := d);
    SameCode(w, d, lv, v.mode, [], v.body, tau);
    if !r.Out? {
      TowerStays(ctx, v.body, BuildTower(v.mode, st), fuel);
      ObservedRight(wd, n, tau, r);
      assert HasType(wd, lv, v.mode, [], v.body, tau) && WentRight(wd, n, tau, Observed(r));
    }
  }

  /** Care is a matter of the program and of what is dark. */
  lemma {:induction false} SameCare(w: World, w': World, lv: nat, n: nat, e: Expr)
    requires w.fugues == w'.fugues && w.dark == w'.dark
    ensures Careful(w, lv, n, e) == Careful(w', lv, n, e)
    decreases e
  {
    hide AtHome, Writes;
    if e.Bind? {
      SameCare(w, w', lv, n, e.k);
      SameCare(OneLess(w), OneLess(w'), lv, n, e.k);
    }
    if e.If? {
      SameCare(w, w', lv, n, e.t);
      SameCare(w, w', lv, n, e.e);
    }
  }

  lemma TowerStays(ctx: Ctx, e: Expr, L: seq<Layer>, fuel: nat)
    ensures var r := Denote(ctx, e, Empty, L, fuel); r.Yield? || r.Halted? ==> |r.L| == |L|
  {
    hide Denote;
    var r := Denote(ctx, e, Empty, L, fuel);
    if r.Yield? || r.Halted? { assert |Kinds(r.L)| == |Kinds(L)|; }
  }

  lemma OwnFugues(fugues: seq<Fugue>, th: seq<Type>, dark: nat)
    ensures RunWorld(fugues, th, dark).fugues == fugues
    ensures forall w :: HasScope(w, Empty, [])
  {
  }

  lemma EnvPhys(fugues: seq<Fugue>, phys: Physics)
    ensures EnvOf(fugues, phys).phys == phys
  {
  }

  // --- the conditions can be met and checked ---

  /** A program without fixpoints takes fixpoints of functions only, at every closing; the parser
      builds no other. */
  lemma FixFreeFixesFunctions(fugues: seq<Fugue>, lv: nat, v: Versus, th: seq<Type>, dark: nat)
    requires CheckVersus(fugues, lv, v).Ok? && Closes(th, CheckVersus(fugues, lv, v).val)
    requires FixFree(v.body) && FixFreeProgram(fugues)
    ensures FixesFunctions(RunWorld(fugues, th, dark), lv, v)
  {
    hide CheckVersus, Closes, HasType;
    AcceptedIsTyped(fugues, lv, v, th);
    var tau :| HasType(SubW(th, OwnWorld(fugues)), lv, v.mode, [], v.body, tau);
    Retied(SubW(th, OwnWorld(fugues)), RunWorld(fugues, th, dark), lv, v.mode, [], v.body, tau);
    assert RunWorld(fugues, th, dark).(tied := true) == RunWorld(fugues, th, dark);
  }

  /** Whether fixpoints can be taken of functions only is decided by running the checker with that
      demand added at each fixpoint, and then the code's own check accepts the verse too. */
  lemma TiedCheckDecides(fugues: seq<Fugue>, lv: nat, v: Versus)
    requires v.rhymes == []
    ensures var w := OwnWorld(fugues).(tied := true);
            && Ready(w, [], START)
            && var r := Infer(w, lv, v.mode, [], v.body, START);
            && ((r.Ok? && CheckPreds(r.val.1, 0).Ok? && Unanimous(r.val.1))
                <==> exists w: World :: w.fugues == fugues && FixesFunctions(w, lv, v))
            && (r.Ok? && CheckPreds(r.val.1, 0).Ok? && Unanimous(r.val.1) ==> CheckVersus(fugues, lv, v).Ok?)
  {
    hide CheckVersus, Closes, HasType, Infer, Unanimous, CheckPreds, Acyclic;
    var w := OwnWorld(fugues).(tied := true);
    StartReady(fugues);
    assert Ready(w, [], START);
    var r := Infer(w, lv, v.mode, [], v.body, START);
    if r.Ok? { ClosableExactly(r.val.1); }
    if r.Ok? && exists th :: Closes(th, r.val.1) {
      var th :| Closes(th, r.val.1);
      InferSound(th, w, lv, v.mode, [], v.body, START);
      var sw := SubW(th, w);
      assert SubG(th, []) == [] && sw.(tied := true) == sw;
      assert FixesFunctions(sw, lv, v);
      var th' := TypableIsAccepted(fugues, lv, v, sw, Sub(th, r.val.0));
    }
    if u: World :| u.fugues == fugues && FixesFunctions(u, lv, v) {
      var tau :| HasType(u.(tied := true), lv, v.mode, [], v.body, tau);
      var u' := u.(tied := true, dark := 0);
      Retied(u.(tied := true), u', lv, v.mode, [], v.body, tau);
      var th0 := [u.arg, u.state, u.throw, u.result];
      assert SubW(th0, w) == u' && SubG(th0, []) == [];
      StartCloses(th0);
      var th := InferComplete(th0, w, lv, v.mode, [], v.body, tau, START);
    }
  }

  /** The type asked of the seed: of the one cell that holds it, unless that is dark. */
  function CellType(mode: Mode, dark: nat, st: Value): Option<Type> {
    if (mode.Lydian? && dark == 0) || (mode.Hypolydian? && dark == 1) then Some(TypeOfValue(st)) else None
  }

  /** Whether data fits a checked verse without fixpoints is decided by unifying the types of the
      input and of the seed with the verse's own: then, and only then, there is a fair closing. */
  lemma DataFits(fugues: seq<Fugue>, lv: nat, v: Versus, dark: nat, arg: Value, st: Value)
    requires CheckVersus(fugues, lv, v).Ok? && FixFree(v.body) && FixFreeProgram(fugues)
    requires Literal(arg) && (CellType(v.mode, dark, st).Some? ==> Literal(st)) && (v.mode.Hypolydian? ==> dark > 0)
    ensures var c, ta, ts := CheckVersus(fugues, lv, v).val, TypeOfValue(arg), CellType(v.mode, dark, st);
            && Good(c) && |c.st| >= 4 && InRange(|c.st|, ta) && (ts.Some? ==> InRange(|c.st|, ts.value))
            && ((exists th :: Fair(fugues, lv, v, th, dark, arg, st)) <==> InputsFit(c, ta, ts))
  {
    hide CheckVersus, Closes, FixFree, FixFreeProgram, InputsFit, Infer, Literal, Fair, CellType, Gives, Acyclic;
    var c, ta, ts := CheckVersus(fugues, lv, v).val, TypeOfValue(arg), CellType(v.mode, dark, st);
    AcceptedShape(fugues, lv, v);
    TypesAreGround(arg);
    if ts.Some? { CellIsGround(v.mode, dark, st); }
    ClosesAtInputs(c, ta, ts);
    forall th ensures Fair(fugues, lv, v, th, dark, arg, st) <==> Closes(th, c) && Gives(th, ta, ts) {
      FairGives(fugues, lv, v, th, dark, arg, st);
    }
  }

  lemma TypesAreGround(v: Value)
    ensures Ground(TypeOfValue(v))
  {
  }

  lemma CellIsGround(mode: Mode, dark: nat, st: Value)
    requires CellType(mode, dark, st).Some?
    ensures Ground(CellType(mode, dark, st).value)
  {
    TypesAreGround(st);
  }

  lemma FairGives(fugues: seq<Fugue>, lv: nat, v: Versus, th: seq<Type>, dark: nat, arg: Value, st: Value)
    requires CheckVersus(fugues, lv, v).Ok? && |CheckVersus(fugues, lv, v).val.st| >= 4
    requires FixFree(v.body) && FixFreeProgram(fugues)
    requires Literal(arg) && (CellType(v.mode, dark, st).Some? ==> Literal(st)) && (v.mode.Hypolydian? ==> dark > 0)
    ensures Fair(fugues, lv, v, th, dark, arg, st)
       <==> Closes(th, CheckVersus(fugues, lv, v).val) && Gives(th, TypeOfValue(arg), CellType(v.mode, dark, st))
  {
    hide CheckVersus, Closes, HasV, HasL, FixFree, FixFreeProgram, FixesFunctions, Literal;
    var w, c := RunWorld(fugues, th, dark), CheckVersus(fugues, lv, v).val;
    if Closes(th, c) {
      ClosesAll(th, c);
      LiteralTyped(w, arg, w.arg);
      SeededTower(w, v.mode, st);
      if CellType(v.mode, dark, st).Some? { LiteralTyped(w, st, w.state); }
    }
  }

  lemma ClosesAll(th: seq<Type>, c: State)
    requires Closes(th, c)
    ensures |th| >= |c.st|
  {
  }

  lemma LiteralTyped(w: World, v: Value, t: Type)
    requires Literal(v)
    ensures HasV(w, v, t) <==> t == TypeOfValue(v)
  {
  }

  /** `pone verum`, then `amen lege`. */
  const WRITES: Expr := Bind(Lydian, Pone(Lit(Bool(true))), "_", Return(Lydian, Lege))

  /** A Lydian verse that writes its cell before it reads it may start from the empty record the
      driver seeds: it is accepted and meets every condition with its one cell dark. */
  lemma WritersMayStartEmpty() returns (th: seq<Type>)
    ensures var v := Versus("v", Lydian, WRITES, []);
            && CheckVersus([], 0, v).Ok? && Unanimous(CheckVersus([], 0, v).val)
            && Fair([], 0, v, th, 1, Unit, EMPTY_STATE)
            && FitProgram([]) && WellFormed(Knotted([]), WRITES)
            && Careful(RunWorld([], [], 1), 0, 1, WRITES) && !Reads(RunWorld([], [], 1), 0, 1, WRITES)
            && !HasV(RunWorld([], th, 1), EMPTY_STATE, RunWorld([], th, 1).state)
  {
    hide CheckVersus, HasType, Closes, HasL, Reads, WellFormed, Unanimous;
    var v := Versus("v", Lydian, WRITES, []);
    var w := World([], TUnit, TBool, TUnit, TBool, false, 0);
    WritesTyped(w);
    th := TypableIsAccepted([], 0, v, w, TUnit);
    WritesParts(RunWorld([], [], 1));
    AcceptedIsClosable([], 0, v);
    SeededTower(RunWorld([], th, 1), Lydian, EMPTY_STATE);
    EmptyIsNoRecord(RunWorld([], th, 1));
    LiteralHas(RunWorld([], th, 1), Unit);
    assert RunWorld([], th, 1).arg == w.arg;
  }

  lemma WritesTyped(w: World)
    requires w == World([], TUnit, TBool, TUnit, TBool, false, 0)
    ensures HasType(w, 0, Lydian, [], WRITES, TUnit)
  {
    hide NameHas, AnswersHave;
    assert HasType(w, 0, Lydian, [], Lit(Bool(true)), TBool);
    OpTyped(w, 0, Lydian, [], WRITES.m, TUnit);
    OpTyped(w, 0, Lydian, [] + [Entry("_", TUnit)], Lege, TBool);
    assert HasType(w, 0, Lydian, [] + [Entry("_", TUnit)], WRITES.k, TUnit);
    BindWhole(w, 0, Lydian, [], WRITES, TUnit, TUnit);
  }

  lemma WritesParts(w: World)
    requires w.fugues == [] && w.dark == 1
    ensures Careful(w, 0, 1, WRITES) && !Reads(w, 0, 1, WRITES)
    ensures FixFree(WRITES) && FixFreeProgram([]) && WellFormed(Knotted([]), WRITES)
  {
    hide Careful, FixFree, AtHome, WellFormed;
    WritesCarefully(w);
    WritesPlainly(Knotted([]));
  }

  lemma WritesCarefully(w: World)
    requires w.fugues == [] && w.dark == 1
    ensures Careful(w, 0, 1, WRITES) && !Reads(w, 0, 1, WRITES)
  {
    hide AtHome;
    WriteReads(w, WRITES.m, Lit(Bool(true)));
    ReadReads(w, WRITES.k);
    BindReads(w, WRITES);
    assert Careful(OneLess(w), 0, 1, WRITES.k);
  }

  lemma WritesPlainly(held: bool)
    ensures FixFree(WRITES) && WellFormed(held, WRITES)
  {
    var p, r, u := WRITES.m, WRITES.k, Lit(Bool(true));
    assert Subs(WRITES) == [p, r] && Subs(p) == [u] && Subs(r) == [Lege];
    assert FixFree(u) && FixFree(Lege);
    assert FixFree(p) && FixFree(r);
  }

  lemma BindReads(w: World, e: Expr)
    requires e.Bind? && !Reads(w, 0, 1, e.k)
    ensures !Reads(w, 0, 1, e)
  {
    assert Subs(e)[1] == e.k && Room(e, 1) == 1;
  }

  lemma WriteReads(w: World, p: Expr, u: Expr)
    requires Subs(p) == [u] && p.Pone? && u == Lit(Bool(true))
    ensures Reads(w, 0, 1, p)
  {
    assert Subs(u) == [] && Reads(w, 0, 1, u);
  }

  lemma ReadReads(w: World, r: Expr)
    requires w.dark == 1 && r == Return(Lydian, Lege)
    ensures Reads(OneLess(w), 0, 1, r) && !Reads(w, 0, 1, r)
  {
    assert Subs(r) == [Lege] && Subs(Lege) == [];
    assert Reads(OneLess(w), 0, 1, Lege);
    assert !Reads(w, 0, 1, Subs(r)[0]);
  }
}
