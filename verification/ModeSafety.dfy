/** Static mode safety: the checker's mode rules keep `WrongMode` out of every run, for verses
    whose lifts do not hide where they could be called at another depth. */
module ModeSafety {
  import opened Core
  import opened Machine
  import opened Meaning
  import opened Unification
  import opened Inference
  import opened Verses
  import opened Adequacy
  import opened Syntax
  import T = Typing
  import V = TypedValues
  import B = Builtins

  // --- what the theorem asks of a program ---

  predicate FirstOrder(v: Value) {
    match v
    case Closure(_, _, _) => false
    case Builtin(_, args) => forall i :: 0 <= i < |args| ==> FirstOrder(args[i])
    case Record(m) => forall x :: x in m ==> FirstOrder(m[x])
    case _ => true
  }

  /** No literal hides a closure. */
  predicate Plain(e: Expr) {
    (e.Lit? ==> FirstOrder(e.v)) && forall i :: 0 <= i < |Subs(e)| ==> Plain(Subs(e)[i])
  }

  predicate PlainProgram(fugues: seq<Fugue>) {
    && (forall i :: 0 <= i < |Answers(fugues)| ==> Plain(Answers(fugues)[i].body))
    && forall i, j :: 0 <= i < |fugues| && 0 <= j < |fugues[i].pedals| ==> FirstOrder(fugues[i].pedals[j].value)
  }

  /** Every op acts on a layer of kind `k`, in `e` and in the answers it may resolve to. */
  predicate OpsKept(fugues: seq<Fugue>, lv: nat, k: LayerKind, e: Expr)
    decreases lv, e
  {
    && (Needs(e).Some? ==> Needs(e) == Some(k))
    && (forall i :: 0 <= i < |Subs(e)| ==> OpsKept(fugues, lv, k, Subs(e)[i]))
    && (e.Resolve? ==> forall i :: 0 <= i < |Answers(fugues)| && Answers(fugues)[i].name == e.x ==>
          lv > 0 && OpsKept(fugues, lv - 1, k, Answers(fugues)[i].body))
  }

  /** Every lift stands where at least two layers are sure to be visible. */
  predicate LiftsAtHome(fugues: seq<Fugue>, lv: nat, n: nat, e: Expr) {
    AtHome(fugues, lv, OpLift, 1, n, e)
  }

  // --- safe values ---

  /** Code that may run wherever at least `n` layers, all of kind `k`, are visible. */
  predicate Safe(fugues: seq<Fugue>, lv: nat, k: LayerKind, n: nat, e: Expr) {
    OpsKept(fugues, lv, k, e) && LiftsAtHome(fugues, lv, n, e) && Plain(e)
  }

  ghost predicate SafeV(fugues: seq<Fugue>, k: LayerKind, v: Value)
    decreases v
  {
    match v
    case Closure(_, b, env) => SafeS(fugues, k, env) && exists lv :: Safe(fugues, lv, k, 1, b)
    case Builtin(_, args) => forall i :: 0 <= i < |args| ==> SafeV(fugues, k, args[i])
    case Record(m) => forall x :: x in m ==> SafeV(fugues, k, m[x])
    case _ => true
  }

  ghost predicate SafeS(fugues: seq<Fugue>, k: LayerKind, s: Scope)
    decreases s
  {
    s.Node? ==> SafeV(fugues, k, s.value) && SafeS(fugues, k, s.next)
  }

  ghost predicate SafeL(fugues: seq<Fugue>, k: LayerKind, L: seq<Layer>) {
    && L != []
    && (forall i :: 0 <= i < |L| ==> KindOf(L[i]) == k)
    && forall i :: 0 <= i < |L| && L[i].StateL? ==> SafeV(fugues, k, L[i].cell)
  }

  ghost predicate SafeR(fugues: seq<Fugue>, k: LayerKind, n: nat, r: Res) {
    match r
    case Yield(v, L, _) => SafeV(fugues, k, v) && SafeL(fugues, k, L) && |L| == n
    case Raise(v, L, _, _) => SafeV(fugues, k, v) && SafeL(fugues, k, L) && |L| == n
    case Halted(v, _, L) => SafeV(fugues, k, v) && SafeL(fugues, k, L) && |L| == n
    case Abort(d) => !d.WrongMode?
    case Out => true
  }

  ghost predicate SafeCtx(ctx: Ctx, fugues: seq<Fugue>, k: LayerKind) {
    ctx.env == EnvOf(fugues, ctx.env.phys) && PlainProgram(fugues) && SafeV(fugues, k, ctx.arg)
  }

  lemma {:induction false} FirstOrderSafe(fugues: seq<Fugue>, k: LayerKind, v: Value)
    requires FirstOrder(v)
    ensures SafeV(fugues, k, v)
    decreases v
  {
    hide SafeS, Safe;
    match v
    case Builtin(_, args) =>
      forall i | 0 <= i < |args| ensures SafeV(fugues, k, args[i]) { FirstOrderSafe(fugues, k, args[i]); }
    case Record(m) =>
      forall x | x in m ensures SafeV(fugues, k, m[x]) { FirstOrderSafe(fugues, k, m[x]); }
    case _ =>
  }

  lemma {:induction false} LookedSafe(fugues: seq<Fugue>, k: LayerKind, s: Scope, x: Sym)
    requires SafeS(fugues, k, s) && s.Lookup(x).Some?
    ensures SafeV(fugues, k, s.Lookup(x).value)
  {
    hide SafeV;
    if s.name != x { LookedSafe(fugues, k, s.next, x); }
  }

  lemma {:induction false} PedalSafe(fugues: seq<Fugue>, phys: Physics, x: Sym)
    requires forall i, j :: 0 <= i < |fugues| && 0 <= j < |fugues[i].pedals| ==> FirstOrder(fugues[i].pedals[j].value)
    requires FindPedal(EnvOf(fugues, phys).pedals, x).Some?
    ensures FirstOrder(FindPedal(EnvOf(fugues, phys).pedals, x).value)
  {
    V.FindAppended(fugues[0].pedals, EnvOf(fugues[1..], phys).pedals, x);
    if FindPedal(fugues[0].pedals, x).Some? {
      FoundPedal(fugues[0].pedals, x);
    } else {
      PedalSafe(fugues[1..], phys, x);
    }
  }

  lemma {:induction false} FoundPedal(ps: seq<Pedal>, x: Sym)
    requires (forall j :: 0 <= j < |ps| ==> FirstOrder(ps[j].value)) && FindPedal(ps, x).Some?
    ensures FirstOrder(FindPedal(ps, x).value)
  {
    if ps[0].name != x { FoundPedal(ps[1..], x); }
  }

  lemma NameSafe(ctx: Ctx, fugues: seq<Fugue>, k: LayerKind, s: Scope, x: Sym)
    requires SafeCtx(ctx, fugues, k) && SafeS(fugues, k, s)
    ensures LookupVar(ctx.env, s, x).Some? ==> SafeV(fugues, k, LookupVar(ctx.env, s, x).value)
    ensures FindPedal(ctx.env.pedals, x).Some? ==> SafeV(fugues, k, FindPedal(ctx.env.pedals, x).value)
  {
    hide FindPedal, SafeS, Safe, EnvOf;
    if s.Lookup(x).Some? { LookedSafe(fugues, k, s, x); }
    if FindPedal(ctx.env.pedals, x).Some? {
      PedalSafe(fugues, ctx.env.phys, x);
      FirstOrderSafe(fugues, k, FindPedal(ctx.env.pedals, x).value);
    }
  }

  // --- safety of the semantics ---

  /** Safe code meets no op its layers do not have. */
  lemma SafeIsLegal(fugues: seq<Fugue>, lv: nat, k: LayerKind, e: Expr, L: seq<Layer>)
    requires Safe(fugues, lv, k, |L|, e) && SafeL(fugues, k, L)
    ensures L != [] && Legal(e, Kinds(L))
  {
    hide SafeV, Answers, Plain, Subs;
    assert Kinds(L)[0] == k;
  }

  lemma SafePart(fugues: seq<Fugue>, lv: nat, k: LayerKind, n: nat, e: Expr, i: nat)
    requires Safe(fugues, lv, k, n, e) && i < |Subs(e)|
    ensures Safe(fugues, lv, k, Room(e, n), Subs(e)[i])
  {
    hide Answers, Subs;
  }

  /** A value meets what follows it: whatever follows is safe too. */
  lemma {:induction false} SafeDenote(ctx: Ctx, fugues: seq<Fugue>, lv: nat, k: LayerKind, e: Expr, s: Scope,
          L: seq<Layer>, fuel: nat)
    requires SafeCtx(ctx, fugues, k) && Safe(fugues, lv, k, |L|, e) && SafeS(fugues, k, s) && SafeL(fugues, k, L)
    ensures SafeR(fugues, k, |L|, Denote(ctx, e, s, L, fuel))
    decreases fuel, 1
  {
    hide Denote, DenoteForm, DenoteRest, Legal, Kinds, Safe, SafeCtx, SafeS, SafeL, SafeV, First, OpOf;
    SafeIsLegal(fugues, lv, k, e, L);
    Unfold(ctx, e, s, L, fuel);
    if fuel > 0 {
      if First(e).None? {
        SafeForm(ctx, fugues, lv, k, e, s, L, fuel);
      } else {
        FirstSafe(fugues, lv, k, e, L);
        SafeDenote(ctx, fugues, lv, k, First(e).value, s, L, fuel - 1);
        var r := FirstRes(ctx, e, s, L, fuel);
        if r.Yield? && r.left > 0 {
          SafeIsLegal(fugues, lv, k, e, r.L);
          SafeRest(ctx, fugues, lv, k, e, s, r.v, r.L, r.left - 1);
        }
      }
    }
  }

  lemma FirstSafe(fugues: seq<Fugue>, lv: nat, k: LayerKind, e: Expr, L: seq<Layer>)
    requires Safe(fugues, lv, k, |L|, e) && First(e).Some? && L != []
    ensures Safe(fugues, lv, k, |L|, First(e).value)
  {
    hide Answers, Plain, Subs;
    SafePart(fugues, lv, k, |L|, e, 0);
    MoreRoom(fugues, lv, OpLift, 1, Room(e, |L|), |L|, First(e).value);
  }

  lemma {:induction false} SafeForm(ctx: Ctx, fugues: seq<Fugue>, lv: nat, k: LayerKind, e: Expr, s: Scope,
          L: seq<Layer>, fuel: nat)
    requires SafeCtx(ctx, fugues, k) && Safe(fugues, lv, k, |L|, e) && SafeS(fugues, k, s) && SafeL(fugues, k, L)
    requires fuel > 0 && First(e).None? && Legal(e, Kinds(L))
    ensures SafeR(fugues, k, |L|, DenoteForm(ctx, e, s, L, fuel))
    decreases fuel, 0
  {
    hide Denote, Kinds, Safe, SafeS, SafeV, LookupVar, FindPedal, EnvOf, PlainProgram;
    match e
    case Lit(v) => LiteralSafe(fugues, lv, k, |L|, e);
    case Var(x) => NameSafe(ctx, fugues, k, s, x);
    case Arg =>
    case Ask(x) => NameSafe(ctx, fugues, k, s, x);
    case Lam(x, b) =>
      SafePart(fugues, lv, k, |L|, e, 0);
      ClosureSafe(fugues, lv, k, x, b, s);
    case Pure(_, m) =>
      SafePart(fugues, lv, k, |L|, e, 0);
      SafeDenote(ctx, fugues, lv, k, m, s, L, fuel - 1);
    case Nihil =>
    case Lege => assert L[SlotOf(e, Kinds(L)).value].StateL?;
    case Recipe(m, x, h) =>
      SafePart(fugues, lv, k, |L|, e, 0);
      SafePart(fugues, lv, k, |L|, e, 1);
      SafeDenote(ctx, fugues, lv, k, m, s, L, fuel - 1);
      var r := Denote(ctx, m, s, L, fuel - 1);
      if r.Raise? {
        BoundSafe(fugues, k, s, x, r.v);
        SafeDenote(ctx, fugues, lv, k, h, s.Bind(x, r.v), r.L, r.left);
      }
    case Lift(m) =>
      SafePart(fugues, lv, k, |L|, e, 0);
      SafeDenote(ctx, fugues, lv, k, m, s, L[1..], fuel - 1);
      RelayerSafe(fugues, k, L, Denote(ctx, m, s, L[1..], fuel - 1));
  }

  lemma LiteralSafe(fugues: seq<Fugue>, lv: nat, k: LayerKind, n: nat, e: Expr)
    requires e.Lit? && Safe(fugues, lv, k, n, e)
    ensures SafeV(fugues, k, e.v)
  {
    FirstOrderSafe(fugues, k, e.v);
  }

  lemma ClosureSafe(fugues: seq<Fugue>, lv: nat, k: LayerKind, x: Sym, b: Expr, s: Scope)
    requires Safe(fugues, lv, k, 1, b) && SafeS(fugues, k, s)
    ensures SafeV(fugues, k, Closure(x, b, s))
  {
    hide Safe;
  }

  lemma BoundSafe(fugues: seq<Fugue>, k: LayerKind, s: Scope, x: Sym, v: Value)
    requires SafeS(fugues, k, s) && SafeV(fugues, k, v)
    ensures SafeS(fugues, k, s.Bind(x, v))
  {
    hide SafeV;
  }

  lemma RelayerSafe(fugues: seq<Fugue>, k: LayerKind, L: seq<Layer>, r: Res)
    requires SafeL(fugues, k, L) && SafeR(fugues, k, |L| - 1, r)
    ensures SafeR(fugues, k, |L|, Relayer(L[0], r))
  {
    hide SafeV;
    if r.Yield? || r.Raise? || r.Halted? {
      var L' := [L[0]] + r.L;
      assert L'[0] == L[0] && forall i :: 1 <= i < |L'| ==> L'[i] == r.L[i - 1];
    }
  }

  lemma {:induction false} SafeRest(ctx: Ctx, fugues: seq<Fugue>, lv: nat, k: LayerKind, e: Expr, s: Scope,
          v: Value, L: seq<Layer>, fuel: nat)
    requires SafeCtx(ctx, fugues, k) && Safe(fugues, lv, k, |L|, e) && SafeS(fugues, k, s) && SafeL(fugues, k, L) && SafeV(fugues, k, v)
    requires First(e).Some? && Legal(e, Kinds(L))
    ensures SafeR(fugues, k, |L|, DenoteRest(ctx, e, s, v, L, fuel))
    decreases fuel, 3
  {
    hide Denote, DenoteApply, Kinds, Safe, SafeS, SafeV, SafeL, SafeCtx, ResolveIn, Perform;
    match e
    case App(_, a) =>
      SafePart(fugues, lv, k, |L|, e, 1);
      SafeDenote(ctx, fugues, lv, k, a, s, L, fuel);
      var r := Denote(ctx, a, s, L, fuel);
      if r.Yield? && r.left > 0 {
        SafeApply(ctx, fugues, k, v, r.v, r.L, r.left - 1);
      }
    case If(_, p, q) =>
      SafePart(fugues, lv, k, |L|, e, 1);
      SafePart(fugues, lv, k, |L|, e, 2);
      SafeDenote(ctx, fugues, lv, k, if v.Bool? && v.b then p else q, s, L, fuel);
    case Fix(f) =>
      KnotSafe(fugues, lv, k, |L|, f, s);
      SafeApply(ctx, fugues, k, v, SelfRef(f, s), L, fuel);
    case Return(_, _) =>
    case Bind(_, _, x, b) =>
      SafePart(fugues, lv, k, |L|, e, 1);
      BoundSafe(fugues, k, s, x, v);
      SafeDenote(ctx, fugues, lv, k, b, s.Bind(x, v), L, fuel);
    case Resolve(x, _) =>
      if v.Genus? && ResolveIn(ctx.env, x, v.genus).Some? {
        AnswerSafe(ctx, fugues, lv, k, |L|, e, v.genus);
        SafeDenote(ctx, fugues, lv - 1, k, ResolveIn(ctx.env, x, v.genus).value, s, L, fuel);
      }
    case Clama(_) | Pone(_) | Mitte(_) | Perage(_) => PerformSafe(fugues, k, e, v, L, fuel);
  }

  lemma KnotSafe(fugues: seq<Fugue>, lv: nat, k: LayerKind, n: nat, f: Expr, s: Scope)
    requires Safe(fugues, lv, k, n, Fix(f)) && SafeS(fugues, k, s)
    ensures SafeV(fugues, k, SelfRef(f, s))
  {
    hide SafeS, Answers;
    SafePart(fugues, lv, k, n, Fix(f), 0);
    var b := App(Fix(f), Var("$stretto"));
    assert Subs(Fix(f)) == [f] && Subs(b) == [Fix(f), Var("$stretto")] && Subs(Var("$stretto")) == [];
    assert Safe(fugues, lv, k, 1, Fix(f));
    assert Safe(fugues, lv, k, 1, Var("$stretto"));
    ClosureSafe(fugues, lv, k, "$stretto", b, s);
  }

  lemma AnswerSafe(ctx: Ctx, fugues: seq<Fugue>, lv: nat, k: LayerKind, n: nat, e: Expr, g: Sym)
    requires SafeCtx(ctx, fugues, k) && Safe(fugues, lv, k, n, e) && e.Resolve? && ResolveIn(ctx.env, e.x, g).Some?
    ensures lv > 0 && Safe(fugues, lv - 1, k, n, ResolveIn(ctx.env, e.x, g).value)
  {
    hide SafeV, Plain, Subs, Answers, EnvOf, ResolveIn;
    var o := ResolveIn(ctx.env, e.x, g).value;
    V.ResolvedIsAnswer(fugues, ctx.env.phys, e.x, g);
    var i :| 0 <= i < |Answers(fugues)| && Answers(fugues)[i].name == e.x && Answers(fugues)[i].body == o;
  }

  lemma PerformSafe(fugues: seq<Fugue>, k: LayerKind, e: Expr, v: Value, L: seq<Layer>, fuel: nat)
    requires (e.Clama? || e.Pone? || e.Mitte? || e.Perage?) && Legal(e, Kinds(L)) && SafeL(fugues, k, L) && SafeV(fugues, k, v)
    ensures SafeR(fugues, k, |L|, Perform(e, v, L, fuel))
  {
  }

  lemma {:induction false} SafeApply(ctx: Ctx, fugues: seq<Fugue>, k: LayerKind, fun: Value, arg: Value,
          L: seq<Layer>, fuel: nat)
    requires SafeCtx(ctx, fugues, k) && SafeV(fugues, k, fun) && SafeV(fugues, k, arg) && SafeL(fugues, k, L)
    ensures SafeR(fugues, k, |L|, DenoteApply(ctx, fun, arg, L, fuel))
    decreases fuel, 2, fun
  {
    hide Denote, Safe, SafeS, SafeL, SafeCtx, B.Call, B.PrimOf, Post;
    match fun
    case Closure(x, b, env) =>
      var lv :| Safe(fugues, lv, k, 1, b);
      RoomSafe(fugues, lv, k, b, L);
      BoundSafe(fugues, k, env, x, arg);
      SafeDenote(ctx, fugues, lv, k, b, env.Bind(x, arg), L, fuel);
    case Builtin(name, args) =>
      var all := args + [arg];
      assert forall i :: 0 <= i < |all| ==> SafeV(fugues, k, all[i]);
      if |all| >= B.Want(name) && B.PrimOf(name).Some? {
        var p := B.PrimOf(name).value;
        CallSafe(fugues, k, ctx.env.phys, p, all);
        if B.Call(ctx.env.phys, p, all).ApplyThen? {
          SafeApply(ctx, fugues, k, args[0], all[1], L, fuel);
          PostSafe(fugues, k, |L|, ctx.env.phys, DenoteApply(ctx, args[0], all[1], L, fuel));
        }
      }
    case _ =>
  }

  lemma RoomSafe(fugues: seq<Fugue>, lv: nat, k: LayerKind, b: Expr, L: seq<Layer>)
    requires Safe(fugues, lv, k, 1, b) && SafeL(fugues, k, L)
    ensures Safe(fugues, lv, k, |L|, b)
  {
    hide AtHome, OpsKept, Plain;
    MoreRoom(fugues, lv, OpLift, 1, 1, |L|, b);
  }

  /** A call's result is built from its arguments and holds no new closure. */
  lemma CallSafe(fugues: seq<Fugue>, k: LayerKind, ph: Physics, p: B.Prim, args: seq<Value>)
    requires |args| >= B.ArityOf(p) && forall i :: 0 <= i < |args| ==> SafeV(fugues, k, args[i])
    ensures B.Call(ph, p, args).Done? ==> SafeV(fugues, k, B.Call(ph, p, args).v)
  {
    hide B.IsSafe, B.ValueEq, SafeS, Safe;
    match p
    case Safe => SafeCallSafe(ph, args[0], args[1]);
    case _ =>
  }

  lemma SafeCallSafe(ph: Physics, body: Value, g: Value)
    ensures B.IsSafe(ph, body, g).Ok? ==> B.IsSafe(ph, body, g).value.Bool?
  {
    hide B.RecordGet;
  }

  lemma PostSafe(fugues: seq<Fugue>, k: LayerKind, n: nat, ph: Physics, r: Res)
    requires SafeR(fugues, k, n, r)
    ensures SafeR(fugues, k, n, Post(ph, r))
  {
    hide SafeL;
  }

  // --- what the checker has checked ---

  /** The kind of every layer of the mode. */
  function KindIn(mode: Mode): (k: LayerKind)
    ensures mode.Tower() == seq(|mode.Tower()|, i => k)
  {
    mode.Tower()[0]
  }

  predicate Kept(fugues: seq<Fugue>, lv: nat, mode: Mode, e: Expr) {
    OpsKept(fugues, lv, KindIn(mode), e) && (|mode.Tower()| == 1 ==> LiftsAtHome(fugues, lv, 1, e))
  }

  lemma KeptWhole(fugues: seq<Fugue>, lv: nat, mode: Mode, e: Expr)
    requires !e.Lift? && !e.Resolve? && (Needs(e).Some? ==> mode.Allows(OpOf(e)))
    requires forall i :: 0 <= i < |Subs(e)| ==> Kept(fugues, lv, mode, Subs(e)[i])
    ensures Kept(fugues, lv, mode, e)
  {
    hide Subs, Answers;
    if Needs(e).Some? { assert Needs(e).value in mode.Tower(); }
  }

  lemma KeptLift(fugues: seq<Fugue>, lv: nat, mode: Mode, m: Expr)
    requires mode.Allows(OpLift) && Kept(fugues, lv, Base(mode), m)
    ensures Kept(fugues, lv, mode, Lift(m))
  {
    hide Answers;
    assert Subs(Lift(m)) == [m];
  }

  predicate AnswersKept(fugues: seq<Fugue>, lv: nat, mode: Mode, os: seq<Overload>, x: Sym) {
    forall i :: 0 <= i < |os| && os[i].name == x ==> Kept(fugues, lv, mode, os[i].body)
  }

  lemma KeptResolve(fugues: seq<Fugue>, lv: nat, mode: Mode, x: Sym, n: Expr)
    requires Kept(fugues, lv, mode, n)
    requires Mentions(Answers(fugues), x) ==> lv > 0 && AnswersKept(fugues, lv - 1, mode, Answers(fugues), x)
    ensures Kept(fugues, lv, mode, Resolve(x, n))
  {
    hide Answers;
    assert Subs(Resolve(x, n)) == [n];
    Mentioned(Answers(fugues), x);
  }

  /** Whatever the checker infers, it has held to the mode. */
  lemma {:induction false} InferKept(w: World, lv: nat, mode: Mode, g: Gamma, e: Expr, c: State)
    requires Ready(w, g, c) && Infer(w, lv, mode, g, e, c).Ok?
    ensures Kept(w.fugues, lv, mode, e)
    decreases lv, 0, e, 2
  {
    hide InferFunctional, InferSequential, InferOp, LookupType, Ready, Kept;
    match e
    case Lit(_) | Var(_) | Arg | Ask(_) => KeptWhole(w.fugues, lv, mode, e);
    case Pure(_, m) =>
      InferKept(w, lv, mode, g, m, c);
      KeptWhole(w.fugues, lv, mode, e);
    case Lift(m) =>
      InferKept(w, lv, Base(mode), g, m, c);
      KeptLift(w.fugues, lv, mode, m);
    case Lam(_, _) | App(_, _) | If(_, _, _) | Fix(_) => FunctionalKept(w, lv, mode, g, e, c);
    case Return(_, _) | Bind(_, _, _, _) | Resolve(_, _) => SequentialKept(w, lv, mode, g, e, c);
    case _ => OpKept(w, lv, mode, g, e, c);
  }

  lemma {:induction false} ExpectKept(w: World, lv: nat, mode: Mode, g: Gamma, e: Expr, want: Type, c: State)
    requires Ready(w, g, c) && InRange(|c.st|, want) && Expect(w, lv, mode, g, e, want, c).Ok?
    ensures Kept(w.fugues, lv, mode, e)
    decreases lv, 0, e, 3
  {
    hide Infer, Ready, Kept, Equate;
    InferKept(w, lv, mode, g, e, c);
  }

  lemma {:induction false} AgreeKept(w: World, lv: nat, mode: Mode, g: Gamma, e: Expr, first: Type, c: State)
    requires Ready(w, g, c) && InRange(|c.st|, first) && Agree(w, lv, mode, g, e, first, c).Ok?
    ensures Kept(w.fugues, lv, mode, e)
    decreases lv, 0, e, 3
  {
    hide Infer, Ready, Kept, Equate;
    InferKept(w, lv, mode, g, e, c);
  }

  lemma {:induction false} FunctionalKept(w: World, lv: nat, mode: Mode, g: Gamma, e: Expr, c: State)
    requires Ready(w, g, c) && (e.Lam? || e.App? || e.If? || e.Fix?) && InferFunctional(w, lv, mode, g, e, c).Ok?
    ensures Kept(w.fugues, lv, mode, e)
    decreases lv, 0, e, 0
  {
    hide Infer, Expect, Agree, Acyclic, WorldIn, Extends, Equate, Kept;
    match e
    case Lam(x, b) =>
      var (a, c1) := Fresh(c);
      GrowsOn(w, g, c, c1);
      InferKept(w, lv, mode, g + [Entry(x, a)], b, c1);
      KeptWhole(w.fugues, lv, mode, e);
    case App(f, a) =>
      var c1 := Infer(w, lv, mode, g, f, c).val.1;
      GrowsOn(w, g, c, c1);
      InferKept(w, lv, mode, g, f, c);
      InferKept(w, lv, mode, g, a, c1);
      KeptWhole(w.fugues, lv, mode, e);
    case If(b, p, q) =>
      var c1 := Expect(w, lv, mode, g, b, TBool, c).val.1;
      GrowsOn(w, g, c, c1);
      var (tt, c2) := Infer(w, lv, mode, g, p, c1).val;
      GrowsOn(w, g, c1, c2);
      ExpectKept(w, lv, mode, g, b, TBool, c);
      InferKept(w, lv, mode, g, p, c1);
      AgreeKept(w, lv, mode, g, q, tt, c2);
      KeptWhole(w.fugues, lv, mode, e);
    case Fix(f) =>
      InferKept(w, lv, mode, g, f, c);
      KeptWhole(w.fugues, lv, mode, e);
  }

  lemma {:induction false} SequentialKept(w: World, lv: nat, mode: Mode, g: Gamma, e: Expr, c: State)
    requires Ready(w, g, c) && (e.Return? || e.Bind? || e.Resolve?) && InferSequential(w, lv, mode, g, e, c).Ok?
    ensures Kept(w.fugues, lv, mode, e)
    decreases lv, 0, e, 0
  {
    hide Infer, Expect, InferStmt, InferAnswers, Acyclic, Extends, Kept;
    match e
    case Return(_, m) =>
      ExpectKept(w, lv, mode, g, m, w.result, c);
      KeptWhole(w.fugues, lv, mode, e);
    case Bind(_, m, x, k) =>
      var stmt := InferStmt(w, lv, mode, g, m, c).val;
      GrowsOn(w, g, c, stmt.c);
      StmtKept(w, lv, mode, g, m, c);
      InferKept(w, lv, mode, g + [Entry(x, stmt.bound)], k, stmt.c);
      KeptWhole(w.fugues, lv, mode, e);
    case Resolve(x, n) =>
      var c1 := Expect(w, lv, mode, g, n, TGenus, c).val.1;
      var (t, c2) := Fresh(c1);
      GrowsTrans(c, c1, c2);
      GrowsOn(w, g, c, c2);
      ExpectKept(w, lv, mode, g, n, TGenus, c);
      if Mentions(Answers(w.fugues), x) {
        AnswersAreKept(w, lv - 1, mode, g, Answers(w.fugues), x, t, c2);
      }
      KeptResolve(w.fugues, lv, mode, x, n);
  }

  lemma {:induction false} StmtKept(w: World, lv: nat, mode: Mode, g: Gamma, m: Expr, c: State)
    requires Ready(w, g, c) && InferStmt(w, lv, mode, g, m, c).Ok?
    ensures Kept(w.fugues, lv, mode, m)
    decreases lv, 0, m, 4
  {
    hide Expect, Infer, Kept, Acyclic, GammaIn, Extends;
    match m
    case Pone(e) =>
      ExpectKept(w, lv, mode, g, e, w.state, c);
      KeptWhole(w.fugues, lv, mode, m);
    case Mitte(e) =>
      InferKept(w, lv, mode, g, e, c);
      KeptWhole(w.fugues, lv, mode, m);
    case _ => InferKept(w, lv, mode, g, m, c);
  }

  lemma {:induction false} AnswersAreKept(w: World, lv: nat, mode: Mode, g: Gamma, os: seq<Overload>, x: Sym,
          want: Type, c: State)
    requires Ready(w, g, c) && InRange(|c.st|, want) && InferAnswers(w, lv, mode, g, os, x, want, c).Ok?
    ensures AnswersKept(w.fugues, lv, mode, os, x)
    decreases lv, 1, |os|
  {
    hide Expect, Acyclic, Extends, GammaIn, WorldIn, InRange, Kept;
    if os != [] {
      if os[0].name != x {
        AnswersAreKept(w, lv, mode, g, os[1..], x, want, c);
      } else {
        var (_, c1) := Expect(w, lv, mode, g, os[0].body, want, c).val;
        GrowsOn(w, g, c, c1);
        Widens(c, c1, want);
        AnswersAreKept(w, lv, mode, g, os[1..], x, want, c1);
        ExpectKept(w, lv, mode, g, os[0].body, want, c);
      }
      forall i | 0 <= i < |os| && os[i].name == x ensures Kept(w.fugues, lv, mode, os[i].body) {
        if i > 0 { assert os[1..][i - 1] == os[i]; }
      }
    }
  }

  lemma {:induction false} OpKept(w: World, lv: nat, mode: Mode, g: Gamma, e: Expr, c: State)
    requires Ready(w, g, c) && Inference.IsOp(e) && InferOp(w, lv, mode, g, e, c).Ok?
    ensures Kept(w.fugues, lv, mode, e)
    decreases lv, 0, e, 0
  {
    hide Infer, Expect, Agree, Acyclic, Extends, Equate, Kept;
    match e
    case Nihil | Lege => KeptWhole(w.fugues, lv, mode, e);
    case Clama(m) =>
      ExpectKept(w, lv, mode, g, m, w.throw, c);
      KeptWhole(w.fugues, lv, mode, e);
    case Recipe(m, x, h) =>
      var (t, c1) := Infer(w, lv, mode, g, m, c).val;
      GrowsOn(w, g, c, c1);
      InferKept(w, lv, mode, g, m, c);
      AgreeKept(w, lv, mode, g + [Entry(x, w.throw)], h, t, c1);
      KeptWhole(w.fugues, lv, mode, e);
    case Pone(m) =>
      ExpectKept(w, lv, mode, g, m, w.state, c);
      KeptWhole(w.fugues, lv, mode, e);
    case Mitte(m) =>
      InferKept(w, lv, mode, g, m, c);
      KeptWhole(w.fugues, lv, mode, e);
    case Perage(m) =>
      ExpectKept(w, lv, mode, g, m, TPlan, c);
      KeptWhole(w.fugues, lv, mode, e);
  }

  // --- runs ---

  lemma FirstOrderTower(fugues: seq<Fugue>, mode: Mode, st: Value)
    requires SafeV(fugues, KindIn(mode), st)
    ensures SafeL(fugues, KindIn(mode), BuildTower(mode, st)) && |BuildTower(mode, st)| == |mode.Tower()|
  {
    hide SafeV;
    SeedSafe(fugues, KindIn(mode), mode.Tower(), st);
  }

  lemma {:induction false} SeedSafe(fugues: seq<Fugue>, k: LayerKind, ks: seq<LayerKind>, st: Value)
    requires SafeV(fugues, k, st) && forall i :: 0 <= i < |ks| ==> ks[i] == k
    ensures var L := Seed(ks, st); |L| == |ks| && (ks != [] ==> SafeL(fugues, k, L))
  {
    if ks != [] { SeedSafe(fugues, k, ks[1..], if ks[0].StateK? then EMPTY_STATE else st); }
  }

  /** A checked verse never raises `WrongMode`, whatever the budget: always when its tower has
      one layer, and with two layers when no lift can be called at another depth. */
  lemma CheckedVersesKeepTheirMode(fugues: seq<Fugue>, lv: nat, v: Versus, phys: Physics, arg: Value,
          st: Value, fuel: nat)
    requires CheckVersus(fugues, lv, v).Ok?
    requires Plain(v.body) && PlainProgram(fugues) && FirstOrder(arg) && FirstOrder(st)
    requires |v.mode.Tower()| == 1 || LiftsAtHome(fugues, lv, |v.mode.Tower()|, v.body)
    ensures var run := RunVerse(EnvOf(fugues, phys), v.mode, v.body, arg, st, fuel);
            run.Ended? && run.e.Broken? ==> !run.e.d.WrongMode?
  {
    hide CheckVersus, Infer, Ready, SafeL, SafeV, SafeS, Denote, EnvOf, LiftsAtHome, OpsKept, Plain, PlainProgram, RunVerse;
    var k, env := KindIn(v.mode), EnvOf(fugues, phys);
    AcceptedShape(fugues, lv, v);
    InferKept(OwnWorld(fugues), lv, v.mode, [], v.body, START);
    FirstOrderSafe(fugues, k, arg);
    FirstOrderSafe(fugues, k, st);
    FirstOrderTower(fugues, v.mode, st);
    EmptySafe(fugues, k, phys);
    RunIsMeaning(env, v.mode, v.body, arg, st, fuel);
    SafeDenote(Ctx(env, v.mode, arg), fugues, lv, k, v.body, Empty, BuildTower(v.mode, st), fuel);
  }

  lemma EmptySafe(fugues: seq<Fugue>, k: LayerKind, phys: Physics)
    ensures SafeS(fugues, k, Empty) && EnvOf(fugues, phys).phys == phys
  {
  }

  // --- a lift that hides ---

  const LIFTS: Expr := Lam("x", Lift(Lit(Unit)))
  const CALLS: Expr := Lift(App(Var("f"), Lit(Unit)))
  const HIDDEN_LIFT: Expr := Bind(Hypodorian, LIFTS, "f", CALLS)

  /** The checker types a function body at the depth it is written at; the machine runs it at
      the depth it is called at. A lift in a function called under a lift is accepted, and has
      no layer to go to. */
  lemma HiddenLiftGoesWrong(env: Env, arg: Value, st: Value, fuel: nat)
    requires fuel >= 10
    ensures CheckVersus([], 0, Versus("v", Hypodorian, HIDDEN_LIFT, [])).Ok?
    ensures RunVerse(env, Hypodorian, HIDDEN_LIFT, arg, st, fuel) == Ended(Broken(WrongMode(Hypodorian, OpLift)))
    ensures !LiftsAtHome([], 0, 2, HIDDEN_LIFT)
  {
    hide CheckVersus, T.HasType;
    var w := World([], TUnit, TUnit, TUnit, TUnit, false, 0);
    HiddenTyped(w);
    var th := TypableIsAccepted([], 0, Versus("v", Hypodorian, HIDDEN_LIFT, []), w, TUnit);
    var k := BuildTower(Hypodorian, st);
    assert k == [MaybeL, MaybeL] by { TwoMaybes(st); }
    HiddenMeans(Ctx(env, Hypodorian, arg), fuel);
    RunIsMeaning(env, Hypodorian, HIDDEN_LIFT, arg, st, fuel);
    assert Subs(HIDDEN_LIFT)[0] == LIFTS && Subs(LIFTS)[0] == Lift(Lit(Unit));
  }

  lemma TwoMaybes(st: Value)
    ensures BuildTower(Hypodorian, st) == [MaybeL, MaybeL]
  {
    assert [MaybeK, MaybeK][1..] == [MaybeK] && [MaybeK][1..] == [];
    assert Seed([MaybeK], st) == [MaybeL] + Seed([], st);
  }

  lemma HiddenTyped(w: World)
    ensures T.HasType(w, 0, Hypodorian, [], HIDDEN_LIFT, TUnit)
  {
    hide T.HasType;
    LiftsTyped(w);
    var t := Fun(TUnit, TUnit);
    assert [] + [Entry("f", t)] == [Entry("f", t)];
    CallsTyped(w, t);
    T.BindWhole(w, 0, Hypodorian, [], HIDDEN_LIFT, TUnit, t);
  }

  lemma LiftsTyped(w: World)
    ensures T.HasType(w, 0, Hypodorian, [], LIFTS, Fun(TUnit, TUnit))
  {
    hide T.AnswersHave, T.OpHasType, T.NameHas;
    var g := [] + [Entry("x", TUnit)];
    assert T.HasType(w, 0, Dorian, g, Lit(Unit), TUnit);
    assert T.HasType(w, 0, Hypodorian, g, Lift(Lit(Unit)), TUnit);
  }

  lemma CallsTyped(w: World, t: Type)
    requires t == Fun(TUnit, TUnit)
    ensures T.HasType(w, 0, Hypodorian, [Entry("f", t)], CALLS, TUnit)
  {
    hide T.AnswersHave, T.OpHasType;
    var g := [Entry("f", t)];
    assert T.HasType(w, 0, Dorian, g, Lit(Unit), TUnit) && T.HasType(w, 0, Dorian, g, Var("f"), t);
    T.AppWhole(w, 0, Dorian, g, CALLS.m, TUnit, TUnit);
  }

  lemma HiddenMeans(ctx: Ctx, fuel: nat)
    requires fuel >= 10
    ensures Denote(ctx, HIDDEN_LIFT, Empty, [MaybeL, MaybeL], fuel) == Abort(WrongMode(ctx.mode, OpLift))
  {
    var L := [MaybeL, MaybeL];
    var f := Closure("x", Lift(Lit(Unit)), Empty);
    var s := Empty.Bind("f", f);
    assert Denote(ctx, LIFTS, Empty, L, fuel - 1) == Yield(f, L, fuel - 2);
    assert L[1..] == [MaybeL];
    CallMeans(ctx, s, f, fuel - 4);
    assert Denote(ctx, CALLS, s, L, fuel - 3) == Abort(WrongMode(ctx.mode, OpLift));
    Unfold(ctx, HIDDEN_LIFT, Empty, L, fuel);
  }

  lemma CallMeans(ctx: Ctx, s: Scope, f: Value, fuel: nat)
    requires fuel >= 6 && f == Closure("x", Lift(Lit(Unit)), Empty) && s.Lookup("f") == Some(f)
    ensures Denote(ctx, App(Var("f"), Lit(Unit)), s, [MaybeL], fuel) == Abort(WrongMode(ctx.mode, OpLift))
  {
    var L := [MaybeL];
    assert Denote(ctx, Var("f"), s, L, fuel - 1) == Yield(f, L, fuel - 2);
    assert Denote(ctx, Lit(Unit), s, L, fuel - 3) == Yield(Unit, L, fuel - 4);
    assert DenoteApply(ctx, f, Unit, L, fuel - 5) == Abort(WrongMode(ctx.mode, OpLift));
    Unfold(ctx, App(Var("f"), Lit(Unit)), s, L, fuel);
  }
}
