/** What a finished run hands back: the topmost cell, and everything that was sent, in order
    (machine.rs, celebrare.rs). */
module Harvest {
  import opened Core
  import opened Machine
  import opened Meaning
  import opened Budget
  import opened Adequacy
  import O = Overtrust
  import B = Builtins

  // --- the outcome is read off the topmost layers ---

  function PlanAt(L: seq<Layer>, i: Option<nat>): Plan
    requires i.Some? ==> i.value < |L| && L[i.value].WriterL?
  {
    if i.Some? then L[i.value].plan else []
  }

  function CellAt(L: seq<Layer>, i: Option<nat>): Value
    requires i.Some? ==> i.value < |L| && L[i.value].StateL?
  {
    if i.Some? then L[i.value].cell else Unit
  }

  lemma {:induction false} FirstBelow(ks: seq<LayerKind>, k: LayerKind, from: nat)
    requires 0 < from <= |ks|
    ensures FirstFrom(ks, from, k)
         == match FirstFrom(ks[1..], from - 1, k) case None => None case Some(i) => Some(i + 1)
    decreases |ks| - from
  {
    if from < |ks| && ks[from] != k { FirstBelow(ks, k, from + 1); }
  }

  lemma KindsBelow(L: seq<Layer>)
    requires L != []
    ensures Kinds(L)[1..] == Kinds(L[1..])
  {
  }

  /** The state and the plan an outcome shows are those of the first layer of their kind. */
  lemma {:induction false} FinishReads(L: seq<Layer>, v: Option<Value>, p: Option<Plan>)
    ensures var o, i, j := Finish(L, v, p), FirstFrom(Kinds(L), 0, StateK), FirstFrom(Kinds(L), 0, WriterK);
            o.value == v && o.committed == p && o.state == CellAt(L, i) && o.plan == PlanAt(L, j)
    decreases |L|
  {
    if L != [] {
      FinishReads(L[1..], v, p);
      KindsBelow(L);
      FirstBelow(Kinds(L), StateK, 1);
      FirstBelow(Kinds(L), WriterK, 1);
    }
  }

  /** A verse that cadences hands back what its meaning left: the value, the topmost cell, the
      topmost plan, and a plan committed only by `perage`. */
  lemma CadenceHandsBack(env: Env, mode: Mode, body: Expr, arg: Value, st: Value, fuel: nat)
    ensures var run, r := RunVerse(env, mode, body, arg, st, fuel), Meant(env, mode, body, arg, st, fuel);
            run.Ended? && run.e.Cadence? ==>
              && (r.Yield? || r.Halted?)
              && var o, i, j := run.e.o, FirstFrom(Kinds(r.L), 0, StateK), FirstFrom(Kinds(r.L), 0, WriterK);
              && o.value == Some(if r.Halted? then r.value else r.v) && o.state == CellAt(r.L, i) && o.plan == PlanAt(r.L, j)
              && o.committed == if r.Halted? then r.committed else None
  {
    hide Denote, Finish, RunVerse;
    RunIsMeaning(env, mode, body, arg, st, fuel);
    var r := Meant(env, mode, body, arg, st, fuel);
    if r.Yield? { FinishReads(r.L, Some(r.v), None); }
    if r.Halted? { FinishReads(r.L, Some(r.value), r.committed); }
  }

  // --- the plan is output: nothing reads it, and it only grows at its end ---

  function Writer(p: Plan): seq<Layer> {
    [WriterL(p)]
  }

  /** The result with more plan before what it has. */
  function After(p: Plan, r: Res): Res {
    match r
    case Yield(v, L, left) => Yield(v, Preceded(p, L), left)
    case Raise(v, L, left, ch) => Raise(v, Preceded(p, L), left, ch)
    case Halted(v, c, L) => Halted(v, c, Preceded(p, L))
    case _ => r
  }

  function Preceded(p: Plan, L: seq<Layer>): seq<Layer> {
    if L != [] && L[0].WriterL? then [WriterL(p + L[0].plan)] + L[1..] else L
  }

  /** The planner's one layer is a writer. */
  lemma OneWriter(L: seq<Layer>)
    requires Kinds(L) == [WriterK]
    ensures |L| == 1 && L[0].WriterL? && L == Writer(L[0].plan)
  {
  }

  lemma WriterKinds(p: Plan)
    ensures Kinds(Writer(p)) == [WriterK]
  {
  }

  lemma PrecededWriter(p: Plan, q: Plan)
    ensures Preceded(p, Writer(q)) == Writer(p + q)
  {
  }

  /** What has been sent before changes nothing but the front of the plan. */
  lemma {:induction false} PlanIsOutput(ctx: Ctx, e: Expr, s: Scope, p: Plan, q: Plan, fuel: nat)
    ensures Denote(ctx, e, s, Writer(p + q), fuel) == After(p, Denote(ctx, e, s, Writer(q), fuel))
    decreases fuel, 1
  {
    hide Denote, DenoteForm, DenoteRest, Legal, Kinds, First, OpOf, Preceded;
    Unfold(ctx, e, s, Writer(p + q), fuel);
    Unfold(ctx, e, s, Writer(q), fuel);
    WriterKinds(q);
    WriterKinds(p + q);
    if fuel > 0 && Legal(e, [WriterK]) {
      if First(e).None? {
        FormIsOutput(ctx, e, s, p, q, fuel);
      } else {
        PlanIsOutput(ctx, First(e).value, s, p, q, fuel - 1);
        var r := FirstRes(ctx, e, s, Writer(q), fuel);
        if r.Yield? && r.left > 0 {
          OneWriter(r.L);
          PrecededWriter(p, r.L[0].plan);
          RestIsOutput(ctx, e, s, r.v, p, r.L[0].plan, r.left - 1);
        }
      }
    }
  }

  lemma {:induction false} FormIsOutput(ctx: Ctx, e: Expr, s: Scope, p: Plan, q: Plan, fuel: nat)
    requires fuel > 0 && First(e).None? && Legal(e, Kinds(Writer(q))) && Legal(e, Kinds(Writer(p + q)))
    ensures DenoteForm(ctx, e, s, Writer(p + q), fuel) == After(p, DenoteForm(ctx, e, s, Writer(q), fuel))
    decreases fuel, 0
  {
    hide Denote, LookupVar, FindPedal;
    match e
    case Pure(_, m) => PlanIsOutput(ctx, m, s, p, q, fuel - 1);
    case _ =>
  }

  lemma {:induction false} RestIsOutput(ctx: Ctx, e: Expr, s: Scope, v: Value, p: Plan, q: Plan, fuel: nat)
    requires First(e).Some? && Legal(e, Kinds(Writer(q))) && Legal(e, Kinds(Writer(p + q)))
    ensures DenoteRest(ctx, e, s, v, Writer(p + q), fuel) == After(p, DenoteRest(ctx, e, s, v, Writer(q), fuel))
    decreases fuel, 3
  {
    hide Denote, DenoteApply, ResolveIn, Kinds, Preceded, Legal;
    PrecededWriter(p, q);
    match e
    case App(_, a) =>
      PlanIsOutput(ctx, a, s, p, q, fuel);
      var r := Denote(ctx, a, s, Writer(q), fuel);
      if r.Yield? && r.left > 0 {
        WriterKinds(q);
        OneWriter(r.L);
        PrecededWriter(p, r.L[0].plan);
        ApplyIsOutput(ctx, v, r.v, p, r.L[0].plan, r.left - 1);
      }
    case If(_, t, f) => PlanIsOutput(ctx, if v.Bool? && v.b then t else f, s, p, q, fuel);
    case Fix(f) => ApplyIsOutput(ctx, v, SelfRef(f, s), p, q, fuel);
    case Return(_, _) =>
    case Bind(_, _, x, k) => PlanIsOutput(ctx, k, s.Bind(x, v), p, q, fuel);
    case Resolve(x, _) =>
      if v.Genus? && ResolveIn(ctx.env, x, v.genus).Some? {
        PlanIsOutput(ctx, ResolveIn(ctx.env, x, v.genus).value, s, p, q, fuel);
      }
    case Clama(_) | Pone(_) | Mitte(_) | Perage(_) => PerformIsOutput(e, v, p, q, fuel);
  }

  lemma PerformIsOutput(e: Expr, v: Value, p: Plan, q: Plan, fuel: nat)
    requires (e.Clama? || e.Pone? || e.Mitte? || e.Perage?) && Legal(e, Kinds(Writer(q))) && Legal(e, Kinds(Writer(p + q)))
    ensures Perform(e, v, Writer(p + q), fuel) == After(p, Perform(e, v, Writer(q), fuel))
  {
    hide Kinds, Preceded, Legal;
    WriterKinds(q);
    WriterKinds(p + q);
    PrecededWriter(p, q);
    if e.Mitte? { MitteIsOutput(e, v, p, q, fuel); } else { OnlyMitte(e); }
  }

  /** Of the ops that use a value only `mitte` finds a writer. */
  lemma OnlyMitte(e: Expr)
    requires (e.Clama? || e.Pone? || e.Perage?)
    ensures !Legal(e, [WriterK])
  {
  }

  lemma MitteIsOutput(e: Expr, v: Value, p: Plan, q: Plan, fuel: nat)
    requires e.Mitte? && Legal(e, Kinds(Writer(q))) && Legal(e, Kinds(Writer(p + q)))
    ensures Perform(e, v, Writer(p + q), fuel) == After(p, Perform(e, v, Writer(q), fuel))
  {
    hide Kinds, Legal;
    WriterKinds(q);
    WriterKinds(p + q);
    assert SlotOf(e, [WriterK]) == Some(0);
    if v.CmdV? { assert (p + q) + [v.cmd] == p + (q + [v.cmd]); }
    if v.PlanV? { assert (p + q) + v.plan == p + (q + v.plan); }
  }

  lemma {:induction false} ApplyIsOutput(ctx: Ctx, fun: Value, arg: Value, p: Plan, q: Plan, fuel: nat)
    ensures DenoteApply(ctx, fun, arg, Writer(p + q), fuel) == After(p, DenoteApply(ctx, fun, arg, Writer(q), fuel))
    decreases fuel, 2, fun
  {
    hide Denote, B.Call, B.PrimOf, Kinds, Preceded, B.ApplyPost;
    PrecededWriter(p, q);
    match fun
    case Closure(x, body, env) => PlanIsOutput(ctx, body, env.Bind(x, arg), p, q, fuel);
    case Builtin(name, args) =>
      var all := args + [arg];
      if |all| >= B.Want(name) && B.PrimOf(name).Some? {
        var called := B.Call(ctx.env.phys, B.PrimOf(name).value, all);
        if called.ApplyThen? { ApplyIsOutput(ctx, args[0], called.arg, p, q, fuel); }
      }
    case _ =>
  }

  // --- what is sent ---

  function Sent(v: Value): Plan {
    if v.CmdV? then [v.cmd] else if v.PlanV? then v.plan else []
  }

  function Flat(vs: seq<Value>): Plan {
    if vs == [] then [] else Sent(vs[0]) + Flat(vs[1..])
  }

  /** The expression has the value, for some budget, and sends nothing itself. */
  ghost predicate Steady(ctx: Ctx, e: Expr, s: Scope, v: Value) {
    exists n: nat :: var r := Denote(ctx, e, s, Writer([]), n); r.Yield? && r.v == v && r.L == Writer([])
  }

  /** With enough budget it has it whatever was sent before. */
  lemma SteadyOn(ctx: Ctx, e: Expr, s: Scope, v: Value) returns (n: nat)
    requires Steady(ctx, e, s, v)
    ensures forall q: Plan, k: nat :: k >= n ==>
              var r := Denote(ctx, e, s, Writer(q), k); r.Yield? && r.v == v && r.L == Writer(q) && r.left >= k - n
  {
    hide Denote;
    n :| var r := Denote(ctx, e, s, Writer([]), n); r.Yield? && r.v == v && r.L == Writer([]);
    forall q: Plan, k: nat | k >= n
      ensures var r := Denote(ctx, e, s, Writer(q), k); r.Yield? && r.v == v && r.L == Writer(q) && r.left >= k - n
    {
      More(ctx, e, s, Writer([]), n, k - n);
      PlanIsOutput(ctx, e, s, q, [], k);
      PrecededWriter(q, []);
      assert q + [] == q;
    }
  }

  lemma MitteSends(ctx: Ctx, m: Expr, s: Scope, v: Value, q: Plan, fuel: nat)
    requires fuel > 0 && (v.CmdV? || v.PlanV?)
    requires var r := Denote(ctx, m, s, Writer(q), fuel - 1); r.Yield? && r.v == v && r.L == Writer(q) && r.left > 0
    ensures var r := Denote(ctx, m, s, Writer(q), fuel - 1);
            Denote(ctx, Mitte(m), s, Writer(q), fuel) == Yield(Unit, Writer(q + Sent(v)), r.left - 1)
  {
    hide Denote, DenoteForm;
    Unfold(ctx, Mitte(m), s, Writer(q), fuel);
    WriterKinds(q);
    assert SlotOf(Mitte(m), [WriterK]) == Some(0);
    var r := Denote(ctx, m, s, Writer(q), fuel - 1);
    assert Perform(Mitte(m), v, Writer(q), r.left - 1) == Yield(Unit, Writer(q + Sent(v)), r.left - 1);
  }

  /** Lines that send, then a cadence. */
  function Mittes(ms: seq<Expr>, tail: Expr): Expr {
    if ms == [] then tail else Bind(Hypomixolydian, Mitte(ms[0]), "_", Mittes(ms[1..], tail))
  }

  /** The lines have the values, commands and plans, each in the scope it stands in. */
  ghost predicate SteadyAll(ctx: Ctx, ms: seq<Expr>, vs: seq<Value>, u: Expr, w: Value, s: Scope)
    decreases |ms|
  {
    if ms == [] then vs == [] && Steady(ctx, u, s, w)
    else
      && vs != [] && (vs[0].CmdV? || vs[0].PlanV?) && Steady(ctx, ms[0], s, vs[0])
      && SteadyAll(ctx, ms[1..], vs[1..], u, w, s.Bind("_", Unit))
  }

  /** A spine of `mitte`s sends exactly its commands and the commands of its plans, in order. */
  lemma {:induction false} SpineSends(ctx: Ctx, ms: seq<Expr>, vs: seq<Value>, u: Expr, w: Value, s: Scope) returns (n: nat)
    requires SteadyAll(ctx, ms, vs, u, w, s)
    ensures forall q: Plan, k: nat :: k >= n ==>
              Denote(ctx, Mittes(ms, Return(Hypomixolydian, u)), s, Writer(q), k) == Halted(w, None, Writer(q + Flat(vs)))
    decreases |ms|
  {
    hide Denote, DenoteForm, Steady;
    var body := Mittes(ms, Return(Hypomixolydian, u));
    if ms == [] {
      var m := SteadyOn(ctx, u, s, w);
      n := m + 2;
      forall q: Plan, k: nat | k >= n ensures Denote(ctx, body, s, Writer(q), k) == Halted(w, None, Writer(q + Flat(vs))) {
        Unfold(ctx, body, s, Writer(q), k);
        assert q + [] == q;
      }
    } else {
      var a := SteadyOn(ctx, ms[0], s, vs[0]);
      var b := SpineSends(ctx, ms[1..], vs[1..], u, w, s.Bind("_", Unit));
      n := a + b + 5;
      forall q: Plan, k: nat | k >= n ensures Denote(ctx, body, s, Writer(q), k) == Halted(w, None, Writer(q + Flat(vs))) {
        MitteSends(ctx, ms[0], s, vs[0], q, k - 1);
        LineThen(ctx, body, s, q, k, q + Sent(vs[0]));
        var left := Denote(ctx, Mitte(ms[0]), s, Writer(q), k - 1).left - 1;
        assert Denote(ctx, Mittes(ms[1..], Return(Hypomixolydian, u)), s.Bind("_", Unit), Writer(q + Sent(vs[0])), left)
            == Halted(w, None, Writer(q + Sent(vs[0]) + Flat(vs[1..])));
        assert (q + Sent(vs[0])) + Flat(vs[1..]) == q + Flat(vs);
      }
    }
  }

  lemma LineThen(ctx: Ctx, e: Expr, s: Scope, q: Plan, k: nat, p: Plan)
    requires e.Bind? && k > 0
    requires var r := Denote(ctx, e.m, s, Writer(q), k - 1); r.Yield? && r.L == Writer(p) && r.left > 0
    ensures var r := Denote(ctx, e.m, s, Writer(q), k - 1);
            Denote(ctx, e, s, Writer(q), k) == Denote(ctx, e.k, s.Bind(e.x, r.v), Writer(p), r.left - 1)
  {
    hide Denote, DenoteForm, Kinds;
    Unfold(ctx, e, s, Writer(q), k);
  }

  lemma TowerOfWriter(st: Value)
    ensures BuildTower(Hypomixolydian, st) == Writer([])
  {
    assert [WriterK][1..] == [] && Seed([], st) == [];
  }

  /** So a verse of such lines cadences with exactly that plan, and commits nothing. */
  lemma VerseSends(env: Env, ms: seq<Expr>, vs: seq<Value>, u: Expr, w: Value, arg: Value, st: Value) returns (n: nat)
    requires SteadyAll(Ctx(env, Hypomixolydian, arg), ms, vs, u, w, Empty)
    ensures forall fuel: nat :: fuel >= n ==>
              RunVerse(env, Hypomixolydian, Mittes(ms, Return(Hypomixolydian, u)), arg, st, fuel)
              == Ended(Cadence(Outcome(Some(w), Unit, Flat(vs), None)))
  {
    hide Denote, RunVerse, BuildTower, SteadyAll;
    var body := Mittes(ms, Return(Hypomixolydian, u));
    n := SpineSends(Ctx(env, Hypomixolydian, arg), ms, vs, u, w, Empty);
    TowerOfWriter(st);
    forall fuel: nat | fuel >= n
      ensures RunVerse(env, Hypomixolydian, body, arg, st, fuel) == Ended(Cadence(Outcome(Some(w), Unit, Flat(vs), None)))
    {
      RunIsMeaning(env, Hypomixolydian, body, arg, st, fuel);
      assert [] + Flat(vs) == Flat(vs);
      WriterFinishes(w, Flat(vs));
    }
  }

  lemma WriterFinishes(w: Value, p: Plan)
    ensures Finish(Writer(p), Some(w), None) == Outcome(Some(w), Unit, p, None)
  {
    FinishReads(Writer(p), Some(w), None);
    WriterKinds(p);
    assert FirstFrom([WriterK], 0, StateK) == None && FirstFrom([WriterK], 0, WriterK) == Some(0);
  }

  // --- the verses of the reference score that plan and commit ---

  const CMD: Expr :=
    App(App(App(Var("cmd"), App(Var("target"), Var("field"))), App(Var("dv_of"), Var("field"))), App(Var("at"), Var("field")))

  /** `field <- arg`, `mitte (cmd (target field) (dv_of field) (at field))`, `amen field`. */
  const CONSILIUM: Expr := Bind(Hypomixolydian, Arg, "field", Mittes([CMD], Return(Hypomixolydian, Var("field"))))

  /** `plan <- arg`, `perage plan`. */
  const EXECUTIO: Expr := Bind(Mixolydian, Arg, "plan", Perage(Var("plan")))

  function CommandOf(ph: Physics, f: Field): GravityCmd {
    GravityCmd(ph.toNat(ph.ofNat(f.target)), B.AlongX(ph, f.dv.x), ph.toNat(ph.ofNat(f.at)))
  }

  /** A deflection becomes a plan of its one command. */
  lemma ConsiliumSends(env: Env, f: Field, st: Value) returns (n: nat)
    ensures forall fuel: nat :: fuel >= n ==>
              RunVerse(env, Hypomixolydian, CONSILIUM, FieldV(f), st, fuel)
              == Ended(Cadence(Outcome(Some(FieldV(f)), Unit, [CommandOf(env.phys, f)], None)))
  {
    hide Denote, RunVerse, BuildTower, SteadyAll;
    var ctx, s := Ctx(env, Hypomixolydian, FieldV(f)), Empty.Bind("field", FieldV(f));
    var c := CommandOf(env.phys, f);
    CommandSteady(ctx, f, s);
    var m := SpineSends(ctx, [CMD], [CmdV(c)], Var("field"), FieldV(f), s);
    n := m + 3;
    TowerOfWriter(st);
    forall fuel: nat | fuel >= n
      ensures RunVerse(env, Hypomixolydian, CONSILIUM, FieldV(f), st, fuel)
           == Ended(Cadence(Outcome(Some(FieldV(f)), Unit, [c], None)))
    {
      RunIsMeaning(env, Hypomixolydian, CONSILIUM, FieldV(f), st, fuel);
      O.ArgMeans(ctx, Empty, Writer([]), fuel - 1);
      LineThen(ctx, CONSILIUM, Empty, [], fuel, []);
      FlatOne(CmdV(c));
      assert [] + Flat([CmdV(c)]) == [c];
      WriterFinishes(FieldV(f), [c]);
    }
  }

  lemma FlatOne(v: Value)
    ensures Flat([v]) == Sent(v)
  {
    assert [v][1..] == [] && Flat([]) == [] && Sent(v) + [] == Sent(v);
  }

  lemma CommandSteady(ctx: Ctx, f: Field, s: Scope)
    requires ctx.arg == FieldV(f) && s == Empty.Bind("field", FieldV(f))
    ensures SteadyAll(ctx, [CMD], [CmdV(CommandOf(ctx.env.phys, f))], Var("field"), FieldV(f), s)
  {
    hide Steady, Denote, SteadyAll;
    CommandMeans(ctx, f, s, 40);
    var s' := s.Bind("_", Unit);
    assert s'.Lookup("field") == s.Lookup("field") == Some(FieldV(f));
    O.VarMeans(ctx, "field", FieldV(f), s', Writer([]), 1);
    HasSteady(ctx, Var("field"), s', FieldV(f), 1);
    HasSteady(ctx, CMD, s, CmdV(CommandOf(ctx.env.phys, f)), 40);
    OneLine(ctx, CMD, CmdV(CommandOf(ctx.env.phys, f)), Var("field"), FieldV(f), s);
  }

  lemma OneLine(ctx: Ctx, m: Expr, v: Value, u: Expr, w: Value, s: Scope)
    requires Steady(ctx, m, s, v) && (v.CmdV? || v.PlanV?) && Steady(ctx, u, s.Bind("_", Unit), w)
    ensures SteadyAll(ctx, [m], [v], u, w, s)
  {
    hide Steady;
    assert [m][1..] == [] && [v][1..] == [];
    assert SteadyAll(ctx, [], [], u, w, s.Bind("_", Unit));
  }

  lemma BuiltinLooked(ctx: Ctx, name: Sym, s: Scope)
    requires s.Lookup(name) == None && B.PrimOf(name).Some?
    ensures LookupVar(ctx.env, s, name) == Some(Builtin(name, []))
  {
    hide B.PrimOf;
  }

  lemma HasSteady(ctx: Ctx, e: Expr, s: Scope, v: Value, n: nat)
    requires var r := Denote(ctx, e, s, Writer([]), n); r.Yield? && r.v == v && r.L == Writer([])
    ensures Steady(ctx, e, s, v)
  {
    hide Denote;
  }

  /** A one-place builtin applied to the name of its argument. */
  lemma AppliedToField(ctx: Ctx, name: Sym, p: B.Prim, v: Value, f: Field, s: Scope, fuel: nat)
    requires fuel >= 6 && s == Empty.Bind("field", FieldV(f)) && name != "field"
    requires B.PrimOf(name) == Some(p) && B.ArityOf(p) == 1 && B.Call(ctx.env.phys, p, [FieldV(f)]) == B.Done(v)
    ensures Denote(ctx, App(Var(name), Var("field")), s, Writer([]), fuel) == Yield(v, Writer([]), fuel - 5)
  {
    hide Denote, B.Call, B.PrimOf, Kinds;
    var L := Writer([]);
    BuiltinLooked(ctx, name, s);
    O.VarMeans(ctx, name, Builtin(name, []), s, L, fuel - 1);
    O.VarMeans(ctx, "field", FieldV(f), s, L, fuel - 3);
    O.AppMeans(ctx, Var(name), Var("field"), s, L, fuel, Builtin(name, []), FieldV(f), fuel - 4);
    assert [] + [FieldV(f)] == [FieldV(f)];
  }

  lemma FieldNames()
    ensures B.PrimOf("target") == Some(B.Target) && B.PrimOf("dv_of") == Some(B.DvOf)
    ensures B.PrimOf("at") == Some(B.At) && B.PrimOf("cmd") == Some(B.MakeCmd)
  {
  }

  /** A three-place builtin still short of arguments keeps what it is given. */
  lemma Gathers(ctx: Ctx, e: Expr, a: Expr, s: Scope, fuel: nat, args: seq<Value>, v: Value, n: nat)
    requires n > 1 && fuel > 0 && |args| < 2 && Denote(ctx, e, s, Writer([]), fuel - 1).Yield?
    requires var r := Denote(ctx, e, s, Writer([]), fuel - 1);
             && r == Yield(Builtin("cmd", args), Writer([]), r.left) && r.left > 0
             && Denote(ctx, a, s, Writer([]), r.left - 1) == Yield(v, Writer([]), n)
    ensures Denote(ctx, App(e, a), s, Writer([]), fuel) == Yield(Builtin("cmd", args + [v]), Writer([]), n - 1)
  {
    hide Denote, Kinds, B.PrimOf;
    FieldNames();
    O.AppMeans(ctx, e, a, s, Writer([]), fuel, Builtin("cmd", args), v, n);
  }

  lemma CommandMeans(ctx: Ctx, f: Field, s: Scope, fuel: nat)
    requires fuel >= 30 && s == Empty.Bind("field", FieldV(f))
    ensures var r := Denote(ctx, CMD, s, Writer([]), fuel);
            r.Yield? && r.v == CmdV(CommandOf(ctx.env.phys, f)) && r.L == Writer([])
  {
    hide Denote, DenoteApply, B.PrimOf, B.Call, Kinds;
    FieldNames();
    var ph, L := ctx.env.phys, Writer([]);
    var t, d, a := Num(ph.ofNat(f.target)), Num(f.dv.x), Num(ph.ofNat(f.at));
    FieldReads(ph, f);
    BuiltinLooked(ctx, "cmd", s);
    O.VarMeans(ctx, "cmd", Builtin("cmd", []), s, L, fuel - 3);
    AppliedToField(ctx, "target", B.Target, t, f, s, fuel - 5);
    Gathers(ctx, Var("cmd"), CMD.f.f.a, s, fuel - 2, [], t, fuel - 10);
    AppliedToField(ctx, "dv_of", B.DvOf, d, f, s, fuel - 12);
    Gathers(ctx, CMD.f.f, CMD.f.a, s, fuel - 1, [] + [t], d, fuel - 17);
    AppliedToField(ctx, "at", B.At, a, f, s, fuel - 19);
    var held := [] + [t] + [d];
    O.AppMeans(ctx, CMD.f, CMD.a, s, L, fuel, Builtin("cmd", held), a, fuel - 24);
    Commands(ctx, held, a, f, fuel - 25);
  }

  lemma FieldReads(ph: Physics, f: Field)
    ensures B.Call(ph, B.Target, [FieldV(f)]) == B.Done(Num(ph.ofNat(f.target)))
    ensures B.Call(ph, B.DvOf, [FieldV(f)]) == B.Done(Num(f.dv.x))
    ensures B.Call(ph, B.At, [FieldV(f)]) == B.Done(Num(ph.ofNat(f.at)))
  {
    hide B.ValueEq, B.IsSafe;
  }

  lemma Commands(ctx: Ctx, held: seq<Value>, a: Value, f: Field, fuel: nat)
    requires var ph := ctx.env.phys; held == [Num(ph.ofNat(f.target)), Num(f.dv.x)] && a == Num(ph.ofNat(f.at))
    ensures DenoteApply(ctx, Builtin("cmd", held), a, Writer([]), fuel)
         == Yield(CmdV(CommandOf(ctx.env.phys, f)), Writer([]), fuel)
  {
    hide Denote, B.PrimOf, B.ValueEq, B.IsSafe;
    FieldNames();
    var all := held + [a];
    assert all == [held[0], held[1], a];
    assert B.Call(ctx.env.phys, B.MakeCmd, all) == B.Done(CmdV(CommandOf(ctx.env.phys, f)));
  }

  lemma TowerOfCommit(st: Value)
    ensures BuildTower(Mixolydian, st) == [CommitL]
  {
    assert [CommitK][1..] == [] && Seed([], st) == [];
  }

  /** The verse that commits hands over exactly the plan it is given: never an empty one, and nothing
      that is no plan. */
  lemma ExecutioCommits(env: Env, arg: Value, st: Value, fuel: nat)
    requires fuel >= 6
    ensures RunVerse(env, Mixolydian, EXECUTIO, arg, st, fuel)
         == Ended(if !arg.PlanV? then Broken(Unconsecrated)
                  else if arg.plan == [] then Broken(Premature)
                  else Cadence(Outcome(Some(Unit), Unit, [], Some(arg.plan))))
  {
    hide Denote, DenoteForm, RunVerse, BuildTower;
    var ctx, L := Ctx(env, Mixolydian, arg), [CommitL];
    TowerOfCommit(st);
    var s := Empty.Bind("plan", arg);
    assert Kinds(L) == [CommitK] && SlotOf(EXECUTIO.k, [CommitK]) == Some(0);
    O.ArgMeans(ctx, Empty, L, fuel - 1);
    O.VarMeans(ctx, "plan", arg, s, L, fuel - 4);
    Unfold(ctx, EXECUTIO.k, s, L, fuel - 3);
    Unfold(ctx, EXECUTIO, Empty, L, fuel);
    RunIsMeaning(env, Mixolydian, EXECUTIO, arg, st, fuel);
    FinishReads(L, Some(Unit), if arg.PlanV? then Some(arg.plan) else None);
    assert FirstFrom([CommitK], 0, StateK) == None && FirstFrom([CommitK], 0, WriterK) == None;
  }

  /** Together, what the driver sends out for a deflection is its one command. */
  lemma DeflectionIsCommitted(env: Env, f: Field, st: Value) returns (n: nat)
    ensures forall fuel: nat :: fuel >= n ==>
              var planned := RunVerse(env, Hypomixolydian, CONSILIUM, FieldV(f), st, fuel);
              && planned.Ended? && planned.e.Cadence?
              && RunVerse(env, Mixolydian, EXECUTIO, PlanV(planned.e.o.plan), st, fuel)
                 == Ended(Cadence(Outcome(Some(Unit), Unit, [], Some([CommandOf(env.phys, f)]))))
  {
    hide RunVerse;
    n := ConsiliumSends(env, f, st);
    n := n + 6;
    forall fuel: nat | fuel >= n
      ensures RunVerse(env, Mixolydian, EXECUTIO, PlanV([CommandOf(env.phys, f)]), st, fuel)
           == Ended(Cadence(Outcome(Some(Unit), Unit, [], Some([CommandOf(env.phys, f)]))))
    {
      ExecutioCommits(env, PlanV([CommandOf(env.phys, f)]), st, fuel);
    }
  }
}
