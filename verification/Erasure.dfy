/** Bindings nobody can look up do not matter. A name that is not free in an expression may be
    bound to anything, or not at all, in the scope it runs in: the results differ only in the
    scopes that closures carry along, and there only in that name. */
module Erasure {
  import opened Core
  import opened Machine
  import opened Meaning
  import B = Builtins

  /** Does `e` mention `x` free? A `resolve` runs some overload in the current scope, so it
      counts when `held` says that an overload mentions `x`. */
  predicate Free(held: bool, x: Sym, e: Expr) {
    match e
    case Var(y) => y == x
    case Lam(y, b) => y != x && Free(held, x, b)
    case App(f, a) => Free(held, x, f) || Free(held, x, a)
    case If(c, t, f) => Free(held, x, c) || Free(held, x, t) || Free(held, x, f)
    case Fix(f) => Free(held, x, f)
    case Pure(_, m) => Free(held, x, m)
    case Return(_, m) => Free(held, x, m)
    case Bind(_, m, y, k) => Free(held, x, m) || (y != x && Free(held, x, k))
    case Resolve(_, g) => held || Free(held, x, g)
    case Clama(m) => Free(held, x, m)
    case Recipe(m, y, h) => Free(held, x, m) || (y != x && Free(held, x, h))
    case Pone(m) => Free(held, x, m)
    case Mitte(m) => Free(held, x, m)
    case Perage(m) => Free(held, x, m)
    case Lift(m) => Free(held, x, m)
    case Lit(_) | Arg | Ask(_) | Nihil | Lege => false
  }

  predicate HeldIn(os: seq<Overload>, x: Sym) {
    os != [] && (Free(false, x, os[0].body) || HeldIn(os[1..], x))
  }

  /** Some overload of the environment mentions `x`. */
  predicate Held(env: Env, x: Sym) {
    HeldIn(env.answers, x) || HeldIn(env.tonals, x)
  }

  lemma {:induction false} FoundMentions(os: seq<Overload>, n: Sym, g: Sym, x: Sym)
    ensures var o := FindOverload(os, n, g); o.Some? && Free(false, x, o.value) ==> HeldIn(os, x)
  {
    if os != [] { FoundMentions(os[1..], n, g, x); }
  }

  lemma ResolvedMentions(env: Env, n: Sym, g: Sym, x: Sym)
    ensures var o := ResolveIn(env, n, g); o.Some? && Free(Held(env, x), x, o.value) ==> Held(env, x)
  {
    FoundMentions(env.answers, n, g, x);
    FoundMentions(env.tonals, n, g, x);
  }

  // --- erasing a name from what closures carry ---

  function StripV(h: bool, x: Sym, v: Value): Value
    decreases v
  {
    match v
    case Closure(y, b, env) => Closure(y, b, StripS(h, x, Free(h, x, Lam(y, b)), env))
    case Builtin(n, args) => Builtin(n, seq(|args|, i requires 0 <= i < |args| => StripV(h, x, args[i])))
    case Record(m) => Record(map k | k in m :: StripV(h, x, m[k]))
    case _ => v
  }

  /** A scope as seen by an expression that mentions `x` (`keep`) or does not. */
  function StripS(h: bool, x: Sym, keep: bool, s: Scope): Scope
    decreases s
  {
    match s
    case Empty => Empty
    case Node(n, v, next) =>
      if n != x then Node(n, StripV(h, x, v), StripS(h, x, keep, next))
      else if keep then Node(n, StripV(h, x, v), StripS(h, x, false, next))
      else StripS(h, x, false, next)
  }

  function StripL(h: bool, x: Sym, L: seq<Layer>): (r: seq<Layer>)
    ensures |r| == |L|
  {
    seq(|L|, i requires 0 <= i < |L| => if L[i].StateL? then StateL(StripV(h, x, L[i].cell)) else L[i])
  }

  function StripR(h: bool, x: Sym, r: Res): Res {
    match r
    case Yield(v, L, left) => Yield(StripV(h, x, v), StripL(h, x, L), left)
    case Raise(v, L, left, ch) => Raise(StripV(h, x, v), StripL(h, x, L), left, ch)
    case Halted(v, p, L) => Halted(StripV(h, x, v), p, StripL(h, x, L))
    case _ => r
  }

  /** What `e` sees of the two scopes is the same. */
  predicate Alike(h: bool, x: Sym, e: Expr, s1: Scope, s2: Scope) {
    StripS(h, x, Free(h, x, e), s1) == StripS(h, x, Free(h, x, e), s2)
  }

  lemma {:induction false} Dropped(h: bool, x: Sym, s: Scope)
    ensures StripS(h, x, false, s) == Without(x, StripS(h, x, true, s))
    ensures Without(x, StripS(h, x, false, s)) == StripS(h, x, false, s)
  {
    if s.Node? { Dropped(h, x, s.next); }
  }

  function Without(x: Sym, s: Scope): Scope {
    if s.Empty? then Empty
    else if s.name == x then Without(x, s.next)
    else Node(s.name, s.value, Without(x, s.next))
  }

  /** A scope alike for an expression is alike for one that mentions no more. */
  lemma Weaker(h: bool, x: Sym, keep: bool, keep': bool, s1: Scope, s2: Scope)
    requires StripS(h, x, keep, s1) == StripS(h, x, keep, s2) && (keep' ==> keep)
    ensures StripS(h, x, keep', s1) == StripS(h, x, keep', s2)
  {
    Dropped(h, x, s1);
    Dropped(h, x, s2);
  }

  lemma {:induction false} LookupStripped(h: bool, x: Sym, keep: bool, s: Scope, y: Sym)
    requires y != x || keep
    ensures StripS(h, x, keep, s).Lookup(y) == match s.Lookup(y) case None => None case Some(v) => Some(StripV(h, x, v))
  {
    if s.Node? && s.name != y {
      LookupStripped(h, x, keep && s.name != x, s.next, y);
    }
  }

  // --- builtins do not look inside closures ---

  lemma StripTag(h: bool, x: Sym, v: Value)
    ensures var w := StripV(h, x, v);
            && (!v.Closure? && !v.Builtin? && !v.Record? ==> w == v)
            && (v.Closure? <==> w.Closure?) && (v.Builtin? <==> w.Builtin?) && (v.Record? <==> w.Record?)
  {
    hide StripS;
  }

  lemma AtomsStripped(ph: Physics, h: bool, x: Sym, a: Value, b: Value)
    requires !(a.Record? && b.Record?)
    ensures B.ValueEq(ph, StripV(h, x, a), StripV(h, x, b)) == B.ValueEq(ph, a, b)
  {
    hide StripV, B.PlanEq, B.CmdEq, B.VecEq;
    StripTag(h, x, a);
    StripTag(h, x, b);
  }

  function StripM(h: bool, x: Sym, m: map<Sym, Value>): map<Sym, Value> {
    map k | k in m :: StripV(h, x, m[k])
  }

  lemma RecordsEq(ph: Physics, m: map<Sym, Value>, n: map<Sym, Value>)
    ensures B.ValueEq(ph, Record(m), Record(n)) <==> m.Keys == n.Keys && forall k :: k in m.Keys ==> B.ValueEq(ph, m[k], n[k])
  {
  }

  lemma {:induction false} EqStripped(ph: Physics, h: bool, x: Sym, a: Value, b: Value)
    ensures B.ValueEq(ph, StripV(h, x, a), StripV(h, x, b)) == B.ValueEq(ph, a, b)
  {
    hide B.ValueEq, StripV;
    if a.Record? && b.Record? {
      var m, n := a.entries, b.entries;
      var m', n' := StripM(h, x, m), StripM(h, x, n);
      StripRecord(h, x, m);
      StripRecord(h, x, n);
      RecordsEq(ph, m, n);
      RecordsEq(ph, m', n');
      assert m'.Keys == m.Keys && n'.Keys == n.Keys;
      if m.Keys == n.Keys {
        forall k | k in m.Keys ensures B.ValueEq(ph, m'[k], n'[k]) == B.ValueEq(ph, m[k], n[k]) {
          EqStripped(ph, h, x, m[k], n[k]);
        }
      }
    } else {
      AtomsStripped(ph, h, x, a, b);
    }
  }

  lemma StripRecord(h: bool, x: Sym, m: map<Sym, Value>)
    ensures StripV(h, x, Record(m)) == Record(StripM(h, x, m))
  {
    hide StripS;
  }

  function StripC(h: bool, x: Sym, c: B.Called): B.Called {
    match c
    case Done(v) => B.Done(StripV(h, x, v))
    case ApplyThen(f, a) => B.ApplyThen(StripV(h, x, f), StripV(h, x, a))
    case Fail(d) => c
  }

  function StripArgs(h: bool, x: Sym, args: seq<Value>): (r: seq<Value>)
    ensures |r| == |args|
  {
    seq(|args|, i requires 0 <= i < |args| => StripV(h, x, args[i]))
  }

  lemma GetStripped(h: bool, x: Sym, v: Value, key: Sym)
    ensures B.RecordGet(StripV(h, x, v), key)
         == match B.RecordGet(v, key) case Ok(w) => B.Ok(StripV(h, x, w)) case Err(d) => B.Err(d)
  {
  }

  lemma NumStripped(h: bool, x: Sym, v: Value)
    ensures B.NumOf(StripV(h, x, v)) == B.NumOf(v)
  {
    hide StripS;
  }

  lemma SafeStripped(ph: Physics, h: bool, x: Sym, body: Value, g: Value)
    ensures B.IsSafe(ph, StripV(h, x, body), StripV(h, x, g)) == B.IsSafe(ph, body, g)
    ensures B.IsSafe(ph, body, g).Ok? ==> B.IsSafe(ph, body, g).value.Bool?
  {
    hide B.RecordGet, StripV, B.NumOf;
    GetStripped(h, x, body, "mass");
    GetStripped(h, x, body, "dist");
    NumStripped(h, x, g);
    var m, d := B.RecordGet(body, "mass"), B.RecordGet(body, "dist");
    if m.Ok? { NumStripped(h, x, m.value); }
    if d.Ok? { NumStripped(h, x, d.value); }
  }

  lemma CorpusStripped(ph: Physics, h: bool, x: Sym, a: Value, b: Value, c: Value, d: Value)
    ensures var r := B.CallCorpus(ph, a, b, c, d);
            B.CallCorpus(ph, StripV(h, x, a), StripV(h, x, b), StripV(h, x, c), StripV(h, x, d)) == r
            && (r.Ok? ==> StripV(h, x, r.value) == r.value)
  {
    var r := B.CallCorpus(ph, a, b, c, d);
    if r.Ok? {
      assert StripV(h, x, r.value).entries == r.value.entries;
    }
  }

  /** A call on stripped arguments is the stripped call. */
  lemma CallStripped(ph: Physics, h: bool, x: Sym, p: B.Prim, args: seq<Value>)
    requires |args| >= B.ArityOf(p)
    ensures B.Call(ph, p, StripArgs(h, x, args)) == StripC(h, x, B.Call(ph, p, args))
  {
    hide B.ValueEq, B.RecordGet, B.IsSafe, B.CallCorpus, StripS;
    match p
    case Eq => EqStripped(ph, h, x, args[0], args[1]);
    case Dist => GetStripped(h, x, args[0], "dist");
    case Mass => GetStripped(h, x, args[0], "mass");
    case GenusOf => GetStripped(h, x, args[0], "genus");
    case Outgassing => GetStripped(h, x, args[0], "outgassing");
    case Safe => SafeStripped(ph, h, x, args[0], args[1]);
    case Corpus => CorpusStripped(ph, h, x, args[0], args[1], args[2], args[3]);
    case _ =>
  }

  // --- the simulation ---

  lemma StripShape(h: bool, x: Sym, L: seq<Layer>)
    ensures Kinds(StripL(h, x, L)) == Kinds(L)
  {
  }

  lemma SameShape(h: bool, x: Sym, L1: seq<Layer>, L2: seq<Layer>)
    requires StripL(h, x, L1) == StripL(h, x, L2)
    ensures Kinds(L1) == Kinds(L2)
  {
    StripShape(h, x, L1);
    StripShape(h, x, L2);
  }

  /** Results alike up to what closures carry under the erased name. */
  predicate SameRes(h: bool, x: Sym, r1: Res, r2: Res) {
    StripR(h, x, r1) == StripR(h, x, r2)
  }

  /** An expression cannot tell alike scopes and layers apart. */
  lemma {:induction false} Irrelevant(ctx: Ctx, x: Sym, e: Expr, s1: Scope, s2: Scope, L1: seq<Layer>,
          L2: seq<Layer>, fuel: nat)
    requires var h := Held(ctx.env, x); Alike(h, x, e, s1, s2) && StripL(h, x, L1) == StripL(h, x, L2)
    ensures SameRes(Held(ctx.env, x), x, Denote(ctx, e, s1, L1, fuel), Denote(ctx, e, s2, L2, fuel))
    decreases fuel, 1
  {
    hide DenoteForm, DenoteRest, Legal, Held, StripS, StripL, Kinds, StripV;
    var h := Held(ctx.env, x);
    SameShape(h, x, L1, L2);
    if fuel > 0 && Legal(e, Kinds(L1)) {
      if First(e).None? {
        IrrelevantForm(ctx, x, e, s1, s2, L1, L2, fuel);
      } else {
        var m := First(e).value;
        Narrow(h, x, e, m, s1, s2);
        Irrelevant(ctx, x, m, s1, s2, L1, L2, fuel - 1);
        var r1, r2 := Denote(ctx, m, s1, L1, fuel - 1), Denote(ctx, m, s2, L2, fuel - 1);
        if r1.Yield? && r1.left > 0 {
          SameShape(h, x, r1.L, r2.L);
          IrrelevantRest(ctx, x, e, s1, s2, r1.v, r2.v, r1.L, r2.L, r1.left - 1);
        }
      }
    }
  }

  /** An operand mentions no more than the expression it is part of. */
  lemma Narrow(h: bool, x: Sym, e: Expr, m: Expr, s1: Scope, s2: Scope)
    requires Alike(h, x, e, s1, s2) && (Free(h, x, m) ==> Free(h, x, e))
    ensures Alike(h, x, m, s1, s2)
  {
    Weaker(h, x, Free(h, x, e), Free(h, x, m), s1, s2);
  }

  /** Binding like values keeps scopes alike for the body under the binder. */
  lemma Bound(h: bool, x: Sym, e: Expr, y: Sym, k: Expr, s1: Scope, s2: Scope, v1: Value, v2: Value)
    requires Alike(h, x, e, s1, s2) && StripV(h, x, v1) == StripV(h, x, v2)
    requires y != x && Free(h, x, k) ==> Free(h, x, e)
    ensures Alike(h, x, k, s1.Bind(y, v1), s2.Bind(y, v2))
  {
    Weaker(h, x, Free(h, x, e), y != x && Free(h, x, k), s1, s2);
  }

  lemma {:induction false} IrrelevantForm(ctx: Ctx, x: Sym, e: Expr, s1: Scope, s2: Scope, L1: seq<Layer>,
          L2: seq<Layer>, fuel: nat)
    requires var h := Held(ctx.env, x); Alike(h, x, e, s1, s2) && StripL(h, x, L1) == StripL(h, x, L2)
    requires fuel > 0 && First(e).None? && Legal(e, Kinds(L1)) && Kinds(L1) == Kinds(L2)
    ensures SameRes(Held(ctx.env, x), x, DenoteForm(ctx, e, s1, L1, fuel), DenoteForm(ctx, e, s2, L2, fuel))
    decreases fuel, 0, 1
  {
    hide Denote, Held, StripS, Kinds;
    var h := Held(ctx.env, x);
    match e
    case Var(y) => LookupAlike(ctx.env, h, x, y, s1, s2);
    case Pure(_, m) =>
      Narrow(h, x, e, m, s1, s2);
      Irrelevant(ctx, x, m, s1, s2, L1, L2, fuel - 1);
    case Lege =>
      var i := SlotOf(e, Kinds(L1)).value;
      assert StripL(h, x, L1)[i] == StripL(h, x, L2)[i];
    case Lift(m) => IrrelevantLift(ctx, x, m, s1, s2, L1, L2, fuel);
    case Recipe(m, y, k) => IrrelevantRecipe(ctx, x, m, y, k, s1, s2, L1, L2, fuel);
    case _ =>
  }

  lemma LookupAlike(env: Env, h: bool, x: Sym, y: Sym, s1: Scope, s2: Scope)
    requires Alike(h, x, Var(y), s1, s2)
    ensures var v, w := LookupVar(env, s1, y), LookupVar(env, s2, y);
            v.Some? == w.Some? && (v.Some? ==> StripV(h, x, v.value) == StripV(h, x, w.value))
  {
    hide B.ValueOf, FindPedal;
    LookupStripped(h, x, y == x, s1, y);
    LookupStripped(h, x, y == x, s2, y);
  }

  lemma {:induction false} IrrelevantLift(ctx: Ctx, x: Sym, m: Expr, s1: Scope, s2: Scope, L1: seq<Layer>,
          L2: seq<Layer>, fuel: nat)
    requires var h := Held(ctx.env, x); Alike(h, x, Lift(m), s1, s2) && StripL(h, x, L1) == StripL(h, x, L2)
    requires fuel > 0 && |L1| == |L2| >= 2
    ensures SameRes(Held(ctx.env, x), x, Relayer(L1[0], Denote(ctx, m, s1, L1[1..], fuel - 1)),
                    Relayer(L2[0], Denote(ctx, m, s2, L2[1..], fuel - 1)))
    decreases fuel, 0, 0
  {
    hide Denote, Held, StripS, Kinds, StripV;
    var h := Held(ctx.env, x);
    Narrow(h, x, Lift(m), m, s1, s2);
    StripTail(h, x, L1);
    StripTail(h, x, L2);
    Irrelevant(ctx, x, m, s1, s2, L1[1..], L2[1..], fuel - 1);
    var r1, r2 := Denote(ctx, m, s1, L1[1..], fuel - 1), Denote(ctx, m, s2, L2[1..], fuel - 1);
    if r1.Yield? || r1.Raise? || r1.Halted? {
      StripCons(h, x, L1[0], r1.L);
      StripCons(h, x, L2[0], r2.L);
      assert StripL(h, x, [L1[0]]) == [StripL(h, x, L1)[0]] == StripL(h, x, [L2[0]]);
    }
  }

  lemma StripTail(h: bool, x: Sym, L: seq<Layer>)
    requires L != []
    ensures StripL(h, x, L[1..]) == StripL(h, x, L)[1..]
  {
  }

  lemma StripCons(h: bool, x: Sym, l: Layer, L: seq<Layer>)
    ensures StripL(h, x, [l] + L) == StripL(h, x, [l]) + StripL(h, x, L)
  {
  }

  lemma {:induction false} IrrelevantRecipe(ctx: Ctx, x: Sym, m: Expr, y: Sym, k: Expr, s1: Scope, s2: Scope,
          L1: seq<Layer>, L2: seq<Layer>, fuel: nat)
    requires var h := Held(ctx.env, x); Alike(h, x, Recipe(m, y, k), s1, s2) && StripL(h, x, L1) == StripL(h, x, L2)
    requires fuel > 0 && Legal(Recipe(m, y, k), Kinds(L1)) && Kinds(L1) == Kinds(L2)
    ensures SameRes(Held(ctx.env, x), x, DenoteForm(ctx, Recipe(m, y, k), s1, L1, fuel), DenoteForm(ctx, Recipe(m, y, k), s2, L2, fuel))
    decreases fuel, 0, 0
  {
    hide Denote, Held, StripS, Kinds, StripV, StripL, SlotOf;
    var h := Held(ctx.env, x);
    Narrow(h, x, Recipe(m, y, k), m, s1, s2);
    Irrelevant(ctx, x, m, s1, s2, L1, L2, fuel - 1);
    var r1, r2 := Denote(ctx, m, s1, L1, fuel - 1), Denote(ctx, m, s2, L2, fuel - 1);
    if r1.Raise? && Some(r1.ch) == SlotOf(Recipe(m, y, k), Kinds(L1)) {
      Bound(h, x, Recipe(m, y, k), y, k, s1, s2, r1.v, r2.v);
      Irrelevant(ctx, x, k, s1.Bind(y, r1.v), s2.Bind(y, r2.v), r1.L, r2.L, r1.left);
    }
  }

  lemma {:induction false} IrrelevantRest(ctx: Ctx, x: Sym, e: Expr, s1: Scope, s2: Scope, v1: Value, v2: Value,
                                          L1: seq<Layer>, L2: seq<Layer>, fuel: nat)
    requires var h := Held(ctx.env, x);
             Alike(h, x, e, s1, s2) && StripV(h, x, v1) == StripV(h, x, v2) && StripL(h, x, L1) == StripL(h, x, L2)
    requires First(e).Some? && Legal(e, Kinds(L1)) && Kinds(L1) == Kinds(L2)
    ensures SameRes(Held(ctx.env, x), x, DenoteRest(ctx, e, s1, v1, L1, fuel), DenoteRest(ctx, e, s2, v2, L2, fuel))
    decreases fuel, 3
  {
    hide Denote, DenoteApply, Held, StripS, StripL, Kinds, ResolveIn, Perform;
    var h := Held(ctx.env, x);
    match e
    case App(_, a) =>
      Narrow(h, x, e, a, s1, s2);
      Irrelevant(ctx, x, a, s1, s2, L1, L2, fuel);
      var r1, r2 := Denote(ctx, a, s1, L1, fuel), Denote(ctx, a, s2, L2, fuel);
      if r1.Yield? && r1.left > 0 {
        IrrelevantApply(ctx, x, v1, v2, r1.v, r2.v, r1.L, r2.L, r1.left - 1);
      }
    case If(_, t, f) =>
      if v1.Bool? {
        Narrow(h, x, e, if v1.b then t else f, s1, s2);
        Irrelevant(ctx, x, if v1.b then t else f, s1, s2, L1, L2, fuel);
      }
    case Fix(f) =>
      SelfAlike(h, x, f, s1, s2);
      IrrelevantApply(ctx, x, v1, v2, SelfRef(f, s1), SelfRef(f, s2), L1, L2, fuel);
    case Bind(_, _, y, k) =>
      Bound(h, x, e, y, k, s1, s2, v1, v2);
      Irrelevant(ctx, x, k, s1.Bind(y, v1), s2.Bind(y, v2), L1, L2, fuel);
    case Resolve(n, _) =>
      if v1.Genus? && ResolveIn(ctx.env, n, v1.genus).Some? {
        var o := ResolveIn(ctx.env, n, v1.genus).value;
        ResolvedMentions(ctx.env, n, v1.genus, x);
        Narrow(h, x, e, o, s1, s2);
        Irrelevant(ctx, x, o, s1, s2, L1, L2, fuel);
      }
    case Return(_, _) =>
    case Clama(_) | Pone(_) | Mitte(_) | Perage(_) => PerformAlike(h, x, e, v1, v2, L1, L2, fuel);
  }

  lemma SelfAlike(h: bool, x: Sym, f: Expr, s1: Scope, s2: Scope)
    requires Alike(h, x, Fix(f), s1, s2)
    ensures StripV(h, x, SelfRef(f, s1)) == StripV(h, x, SelfRef(f, s2))
  {
    var body := App(Fix(f), Var("$stretto"));
    assert Free(h, x, body) == (Free(h, x, Fix(f)) || Free(h, x, Var("$stretto")));
    Weaker(h, x, Free(h, x, Fix(f)), Free(h, x, Lam("$stretto", body)), s1, s2);
  }

  lemma PerformAlike(h: bool, x: Sym, e: Expr, v1: Value, v2: Value, L1: seq<Layer>, L2: seq<Layer>, fuel: nat)
    requires StripV(h, x, v1) == StripV(h, x, v2) && StripL(h, x, L1) == StripL(h, x, L2)
    requires (e.Clama? || e.Pone? || e.Mitte? || e.Perage?) && Legal(e, Kinds(L1)) && Kinds(L1) == Kinds(L2)
    ensures SameRes(h, x, Perform(e, v1, L1, fuel), Perform(e, v2, L2, fuel))
  {
    hide StripS;
    var i := SlotOf(e, Kinds(L1)).value;
    assert StripL(h, x, L1)[i] == StripL(h, x, L2)[i];
    if e.Pone? {
      StripUpdate(h, x, L1, i, StateL(v1));
      StripUpdate(h, x, L2, i, StateL(v2));
    } else if e.Mitte? && (v1.CmdV? || v1.PlanV?) {
      var p := L1[i].plan + if v1.CmdV? then [v1.cmd] else v1.plan;
      StripUpdate(h, x, L1, i, WriterL(p));
      StripUpdate(h, x, L2, i, WriterL(p));
    }
  }

  lemma StripUpdate(h: bool, x: Sym, L: seq<Layer>, i: nat, l: Layer)
    requires i < |L|
    ensures StripL(h, x, L[i := l]) == StripL(h, x, L)[i := StripL(h, x, [l])[0]]
  {
  }

  lemma {:induction false} IrrelevantApply(ctx: Ctx, x: Sym, f1: Value, f2: Value, a1: Value, a2: Value,
                                           L1: seq<Layer>, L2: seq<Layer>, fuel: nat)
    requires var h := Held(ctx.env, x);
             StripV(h, x, f1) == StripV(h, x, f2) && StripV(h, x, a1) == StripV(h, x, a2) && StripL(h, x, L1) == StripL(h, x, L2)
    ensures SameRes(Held(ctx.env, x), x, DenoteApply(ctx, f1, a1, L1, fuel), DenoteApply(ctx, f2, a2, L2, fuel))
    decreases fuel, 2, f1
  {
    hide Denote, Held, StripS, StripL, B.Call, B.PrimOf, Kinds, Free;
    var h := Held(ctx.env, x);
    match f1
    case Closure(y, b, env) =>
      Bound(h, x, Lam(y, b), y, b, env, f2.env, a1, a2) by { FreeLam(h, x, y, b); }
      Irrelevant(ctx, x, b, env.Bind(y, a1), f2.env.Bind(y, a2), L1, L2, fuel);
    case Builtin(name, args) => IrrelevantCall(ctx, x, f1, f2, a1, a2, L1, L2, fuel);
    case _ =>
  }

  lemma FreeLam(h: bool, x: Sym, y: Sym, b: Expr)
    ensures Free(h, x, Lam(y, b)) == (y != x && Free(h, x, b))
  {
  }

  lemma ArgsAlike(h: bool, x: Sym, f1: Value, f2: Value, a1: Value, a2: Value)
    requires f1.Builtin? && StripV(h, x, f1) == StripV(h, x, f2) && StripV(h, x, a1) == StripV(h, x, a2)
    ensures f2.Builtin? && f2.name == f1.name && |f1.args| == |f2.args|
    ensures StripArgs(h, x, f1.args + [a1]) == StripArgs(h, x, f2.args + [a2])
    ensures StripV(h, x, Builtin(f1.name, f1.args + [a1])) == StripV(h, x, Builtin(f2.name, f2.args + [a2]))
    ensures forall i :: 0 <= i < |f1.args| ==> StripV(h, x, f1.args[i]) == StripV(h, x, f2.args[i])
  {
    hide StripV;
    BuiltinStripped(h, x, f1);
    BuiltinStripped(h, x, f2);
    forall i | 0 <= i < |f1.args|
      ensures StripV(h, x, f1.args[i]) == StripV(h, x, f2.args[i])
    {
      assert StripArgs(h, x, f1.args)[i] == StripArgs(h, x, f2.args)[i];
    }
    assert StripArgs(h, x, f1.args + [a1]) == StripArgs(h, x, f1.args) + [StripV(h, x, a1)];
    assert StripArgs(h, x, f2.args + [a2]) == StripArgs(h, x, f2.args) + [StripV(h, x, a2)];
    BuiltinStripped(h, x, Builtin(f1.name, f1.args + [a1]));
    BuiltinStripped(h, x, Builtin(f2.name, f2.args + [a2]));
  }

  lemma BuiltinStripped(h: bool, x: Sym, v: Value)
    ensures v.Builtin? ==> StripV(h, x, v) == Builtin(v.name, StripArgs(h, x, v.args))
    ensures StripV(h, x, v).Builtin? ==> v.Builtin?
  {
    hide StripS;
  }

  lemma {:induction false} IrrelevantCall(ctx: Ctx, x: Sym, f1: Value, f2: Value, a1: Value, a2: Value,
                                          L1: seq<Layer>, L2: seq<Layer>, fuel: nat)
    requires var h := Held(ctx.env, x);
             StripV(h, x, f1) == StripV(h, x, f2) && StripV(h, x, a1) == StripV(h, x, a2) && StripL(h, x, L1) == StripL(h, x, L2)
    requires f1.Builtin?
    ensures SameRes(Held(ctx.env, x), x, DenoteApply(ctx, f1, a1, L1, fuel), DenoteApply(ctx, f2, a2, L2, fuel))
    decreases fuel, 2, f1, 0
  {
    hide Denote, Held, StripV, StripL, StripArgs, B.Call, B.PrimOf, Kinds, Post;
    var h := Held(ctx.env, x);
    ArgsAlike(h, x, f1, f2, a1, a2);
    var all1, all2 := f1.args + [a1], f2.args + [a2];
    if |all1| >= B.Want(f1.name) && B.PrimOf(f1.name).Some? {
      var p := B.PrimOf(f1.name).value;
      CallStripped(ctx.env.phys, h, x, p, all1);
      CallStripped(ctx.env.phys, h, x, p, all2);
      var c1, c2 := B.Call(ctx.env.phys, p, all1), B.Call(ctx.env.phys, p, all2);
      if c1.ApplyThen? {
        IrrelevantApply(ctx, x, f1.args[0], f2.args[0], c1.arg, c2.arg, L1, L2, fuel);
        PostAlike(ctx.env.phys, h, x, DenoteApply(ctx, f1.args[0], c1.arg, L1, fuel), DenoteApply(ctx, f2.args[0], c2.arg, L2, fuel));
      }
    }
  }

  lemma PostAlike(ph: Physics, h: bool, x: Sym, r1: Res, r2: Res)
    requires SameRes(h, x, r1, r2)
    ensures SameRes(h, x, Post(ph, r1), Post(ph, r2))
  {
    hide StripS, StripL;
  }
}
