/** `Lift` is the lift of a monad transformer: it distributes over bind, hides nothing and
    touches nothing above, and a lifted run is the run of the mode's own base. */
module Lifting {
  import opened Core
  import opened Machine
  import opened Meaning
  import opened Budget
  import opened Laws
  import opened Invariant
  import opened Adequacy
  import B = Builtins

  // --- the laws of lift ---

  /** Lift(Bind m x k) = Bind (Lift m) x (Lift k). */
  lemma LiftOfBind(ctx: Ctx, md: Mode, m: Expr, x: Sym, k: Expr, s: Scope, L: seq<Layer>, fuel: nat)
    ensures var l, r := Lift(Bind(md, m, x, k)), Bind(md, Lift(m), x, Lift(k));
            && (!Denote(ctx, l, s, L, fuel).Out? ==> Spare(Denote(ctx, r, s, L, fuel + 2)) == Spare(Denote(ctx, l, s, L, fuel)))
            && (!Denote(ctx, r, s, L, fuel).Out? ==> Spare(Denote(ctx, l, s, L, fuel)) == Spare(Denote(ctx, r, s, L, fuel)))
  {
    hide Denote, Spare;
    LiftMeans(ctx, Bind(md, m, x, k), s, L, fuel);
    BindMeans(ctx, md, Lift(m), x, Lift(k), s, L, fuel);
    BindMeans(ctx, md, Lift(m), x, Lift(k), s, L, fuel + 2);
    LiftMeans(ctx, m, s, L, fuel + 1);
    if fuel > 0 {
      LiftMeans(ctx, m, s, L, fuel - 1);
      if |L| >= 2 {
        BindMeans(ctx, md, m, x, k, s, L[1..], fuel - 1);
        if fuel > 1 { LiftedBind(ctx, m, x, k, s, L, fuel - 2); }
      }
    }
  }

  lemma LiftedBind(ctx: Ctx, m: Expr, x: Sym, k: Expr, s: Scope, L: seq<Layer>, f: nat)
    requires |L| >= 2
    ensures var l := Relayer(L[0], Then(ctx, Denote(ctx, m, s, L[1..], f), x, k, s));
            var r := Then(ctx, Relayer(L[0], Denote(ctx, m, s, L[1..], f + 2)), x, Lift(k), s);
            var r' := Then(ctx, Relayer(L[0], Denote(ctx, m, s, L[1..], f)), x, Lift(k), s);
            (!l.Out? ==> Spare(r) == Spare(l)) && (!r'.Out? ==> Spare(l) == Spare(r'))
  {
    hide Denote, Kinds;
    var q := Denote(ctx, m, s, L[1..], f);
    if !q.Out? {
      More(ctx, m, s, L[1..], f, 2);
      if q.Yield? && q.left > 0 {
        assert |Kinds(q.L)| == |Kinds(L[1..])|;
        LiftedTail(ctx, k, s.Bind(x, q.v), L[0], q.L, q.left);
      }
    }
  }

  /** The rest of the bind, lifted, under the budgets the two sides leave it. */
  lemma LiftedTail(ctx: Ctx, k: Expr, s: Scope, top: Layer, L: seq<Layer>, n: nat)
    requires n > 0 && L != []
    ensures Denote(ctx, Lift(k), s, [top] + L, n) == Relayer(top, Denote(ctx, k, s, L, n - 1))
    ensures n > 1 && !Denote(ctx, Lift(k), s, [top] + L, n - 2).Out? ==>
              Spare(Denote(ctx, Lift(k), s, [top] + L, n - 2)) == Spare(Relayer(top, Denote(ctx, k, s, L, n - 1)))
  {
    hide Denote;
    assert ([top] + L)[1..] == L;
    LiftMeans(ctx, k, s, [top] + L, n);
    if n > 1 {
      LiftMeans(ctx, k, s, [top] + L, n - 2);
      if n > 2 && !Denote(ctx, k, s, L, n - 3).Out? { More(ctx, k, s, L, n - 3, 2); }
    }
  }

  // --- what a lift leaves alone ---

  /** A step taken while a lift is open changes no layer that lift hides. */
  lemma StepBelowLift(ctx: Ctx, c: Config, j: nat)
    requires Inv(ctx.mode, c) && j < |c.stack| && c.stack[j].LiftK?
    ensures var d := c.stack[j].saved;
            d < |c.tower| && (Step(ctx, c).Next? ==> |Step(ctx, c).c.tower| == |c.tower| && Step(ctx, c).c.tower[..d + 1] == c.tower[..d + 1])
  {
    hide StackOk, Lifts, EvalStep, ValueStep, Unwind;
    FramesLegal(ctx.mode.Tower(), c.stack, j);
    match c.control
    case Eval(e, s) => EvalKeepsTower(ctx, c, e, s);
    case Ret(v) => ValueBelowLift(ctx, c, v, j);
  }

  lemma EvalKeepsTower(ctx: Ctx, c: Config, e: Expr, s: Scope)
    ensures var sig := EvalStep(ctx, c, e, s); (sig.Go? ==> sig.c.tower == c.tower) && !sig.Throw?
  {
    hide LookupVar, FindPedal, Finish;
  }

  lemma ValueBelowLift(ctx: Ctx, c: Config, v: Value, j: nat)
    requires Inv(ctx.mode, c) && j < |c.stack| && c.stack[j].LiftK?
    ensures var n, d := |c.stack| - 1, c.stack[j].saved;
            var sig := ValueStep(ctx, c.(stack := c.stack[..n]), c.stack[n], v);
            d < |c.tower| && (!sig.Halt? ==> |sig.c.tower| == |c.tower| && sig.c.tower[..d + 1] == c.tower[..d + 1])
  {
    hide StackOk, Lifts, Apply, Finish, ResolveIn, B.ApplyPost;
    var n := |c.stack| - 1;
    var below, f := c.stack[..n], c.stack[n];
    FramesLegal(ctx.mode.Tower(), c.stack, j);
    FramesLegal(ctx.mode.Tower(), c.stack, n);
    if j < n { OpenLift(ctx.mode.Tower(), below, j); assert below[j] == c.stack[j]; }
    if f.AppCall? { ApplyKeepsTower(ctx, c.(stack := below), f.f, v); }
    if f.FixK? { ApplyKeepsTower(ctx, c.(stack := below), v, SelfRef(f.op, f.s)); }
  }

  /** An open lift counts. */
  lemma {:induction false} OpenLift(ks: seq<LayerKind>, stack: seq<Frame>, j: nat)
    requires StackOk(ks, stack) && j < |stack| && stack[j].LiftK?
    ensures stack[j].saved < Lifts(stack)
  {
    if j < |stack| - 1 {
      OpenLift(ks, stack[..|stack| - 1], j);
    }
  }

  lemma {:induction false} ApplyKeepsTower(ctx: Ctx, c: Config, fun: Value, arg: Value)
    ensures var sig := Apply(ctx, c, fun, arg); (sig.Go? ==> sig.c.tower == c.tower) && !sig.Throw?
    decreases fun
  {
    hide B.Call, B.PrimOf;
    if fun.Builtin? && |fun.args| + 1 >= B.Want(fun.name) && B.PrimOf(fun.name).Some? {
      var called := B.Call(ctx.env.phys, B.PrimOf(fun.name).value, fun.args + [arg]);
      if called.ApplyThen? {
        assert called.f == fun.args[0];
        ApplyKeepsTower(ctx, c.(stack := c.stack + [BuiltinPost]), called.f, called.arg);
      }
    }
  }

  /** From the lift on and until the step that leaves it, by a value, a throw or a handler, the
      layers it hides are as they were. */
  lemma {:induction false} LiftTouchesNothingAbove(ctx: Ctx, c: Config, j: nat, n: nat)
    requires Inv(ctx.mode, c) && j < |c.stack| && c.stack[j].LiftK?
    requires forall m :: 0 <= m < n ==> Resume(ctx, c, m).OutOfFuel? && c.stack[..j + 1] <= Resume(ctx, c, m).c.stack
    requires Resume(ctx, c, n).OutOfFuel?
    ensures var d, t := c.stack[j].saved, Resume(ctx, c, n).c.tower; d < |c.tower| == |t| && t[..d + 1] == c.tower[..d + 1]
    decreases n
  {
    hide Inv, Step;
    StepBelowLift(ctx, c, j);
    if n > 0 {
      assert Step(ctx, c).Next?;
      var c1 := Step(ctx, c).c;
      StepKeepsInv(ctx, c);
      if n > 1 {
        assert Resume(ctx, c, 1) == Resume(ctx, c1, 0);
        assert c.stack[..j + 1] <= c1.stack;
        assert c1.stack[j] == c1.stack[..j + 1][j] == c.stack[..j + 1][j];
        forall m | 0 <= m < n - 1 ensures Resume(ctx, c1, m).OutOfFuel? && c1.stack[..j + 1] <= Resume(ctx, c1, m).c.stack {
          assert Resume(ctx, c, m + 1) == Resume(ctx, c1, m);
        }
        LiftTouchesNothingAbove(ctx, c1, j, n - 1);
      }
    }
  }

  /** In a mode's tower an op binds to the very layer its lift depth is at. */
  lemma BindsAtDepth(mode: Mode, d: nat, kind: LayerKind)
    ensures FirstFrom(mode.Tower(), d, kind).Some? ==> FirstFrom(mode.Tower(), d, kind) == Some(d)
  {
  }

  /** A throw is caught by the innermost recipe entered at the throw's own lift depth, and passes
      every recipe entered at another, whatever else is on the stack. */
  lemma InnerThrowPassesOuterRecipe(ctx: Ctx, c: Config)
    requires Inv(ctx.mode, c) && c.control.Ret? && c.stack != [] && c.stack[|c.stack| - 1].ClamaK?
    ensures var S := c.stack[..|c.stack| - 1];
            var q := Innermost(S, Lifts(S));
            && Step(ctx, c) == (if q == |S| then End(Broken(User(c.control.v)))
                                else Next(Config(Eval(S[q].h, S[q].s.Bind(S[q].x, c.control.v)), S[..q], c.tower, Lifts(S))))
            && (q < |S| ==> Lifts(S[..q]) == Lifts(S))
            && forall p :: 0 <= p < |S| && S[p].RecipeH? && (q == |S| || p > q) ==> Lifts(S[..p]) != Lifts(S)
  {
    hide StackOk, Lifts, Unwind, FirstFrom;
    var ks, n := ctx.mode.Tower(), |c.stack| - 1;
    var S := c.stack[..n];
    FramesLegal(ks, c.stack, n);
    var ch := c.stack[n].ch;
    BindsAtDepth(ctx.mode, Lifts(S), ExceptK);
    ThrowMeetsItsHandler(ks, S, ch);
    forall p | 0 <= p < |S| && S[p].RecipeH? ensures S[p].ch == Lifts(S[..p]) {
      FramesLegal(ks, S, p);
      BindsAtDepth(ctx.mode, Lifts(S[..p]), ExceptK);
    }
    Unlifted(ks, c.stack);
  }

  /** The frame just popped is no lift. */
  lemma Unlifted(ks: seq<LayerKind>, stack: seq<Frame>)
    requires stack != [] && stack[|stack| - 1].ClamaK?
    ensures Lifts(stack) == Lifts(stack[..|stack| - 1])
  {
  }

  // --- the mode only names itself in a diagnostic ---

  /** A result as it reads in another mode. */
  function Named(md: Mode, r: Res): Res {
    if r.Abort? && r.d.WrongMode? then Abort(WrongMode(md, r.d.op)) else r
  }

  /** What a run does depends on the layers, not on the name of the mode. */
  lemma {:induction false} ModeIsAName(ctx: Ctx, ctx': Ctx, e: Expr, s: Scope, L: seq<Layer>, fuel: nat)
    requires ctx'.env == ctx.env && ctx'.arg == ctx.arg
    ensures Denote(ctx', e, s, L, fuel) == Named(ctx'.mode, Denote(ctx, e, s, L, fuel))
    decreases fuel, 1
  {
    hide Denote, DenoteForm, DenoteRest, Legal, Kinds, First, OpOf;
    Unfold(ctx, e, s, L, fuel);
    Unfold(ctx', e, s, L, fuel);
    if fuel > 0 && Legal(e, Kinds(L)) {
      if First(e).None? {
        FormNamed(ctx, ctx', e, s, L, fuel);
      } else {
        ModeIsAName(ctx, ctx', First(e).value, s, L, fuel - 1);
        var r := Denote(ctx, First(e).value, s, L, fuel - 1);
        if r.Yield? && r.left > 0 {
          RestNamed(ctx, ctx', e, s, r.v, r.L, r.left - 1);
        }
      }
    }
  }

  lemma {:induction false} FormNamed(ctx: Ctx, ctx': Ctx, e: Expr, s: Scope, L: seq<Layer>, fuel: nat)
    requires ctx'.env == ctx.env && ctx'.arg == ctx.arg
    requires fuel > 0 && First(e).None? && Legal(e, Kinds(L))
    ensures DenoteForm(ctx', e, s, L, fuel) == Named(ctx'.mode, DenoteForm(ctx, e, s, L, fuel))
    decreases fuel, 0
  {
    hide Denote, Kinds, SlotOf, LookupVar, FindPedal;
    match e
    case Pure(_, m) => ModeIsAName(ctx, ctx', m, s, L, fuel - 1);
    case Lift(m) => ModeIsAName(ctx, ctx', m, s, L[1..], fuel - 1);
    case Recipe(m, x, h) =>
      var r := Denote(ctx, m, s, L, fuel - 1);
      ModeIsAName(ctx, ctx', m, s, L, fuel - 1);
      if r.Raise? && Some(r.ch) == SlotOf(e, Kinds(L)) {
        ModeIsAName(ctx, ctx', h, s.Bind(x, r.v), r.L, r.left);
      }
    case _ =>
  }

  lemma {:induction false} RestNamed(ctx: Ctx, ctx': Ctx, e: Expr, s: Scope, v: Value, L: seq<Layer>, fuel: nat)
    requires ctx'.env == ctx.env && ctx'.arg == ctx.arg
    requires First(e).Some? && Legal(e, Kinds(L))
    ensures DenoteRest(ctx', e, s, v, L, fuel) == Named(ctx'.mode, DenoteRest(ctx, e, s, v, L, fuel))
    decreases fuel, 3
  {
    hide Denote, DenoteApply, Kinds, SlotOf, ResolveIn;
    match e
    case App(_, a) =>
      ModeIsAName(ctx, ctx', a, s, L, fuel);
      var r := Denote(ctx, a, s, L, fuel);
      if r.Yield? && r.left > 0 {
        ApplyNamed(ctx, ctx', v, r.v, r.L, r.left - 1);
      }
    case If(_, t, f) => if v.Bool? { ModeIsAName(ctx, ctx', if v.b then t else f, s, L, fuel); }
    case Fix(f) => ApplyNamed(ctx, ctx', v, SelfRef(f, s), L, fuel);
    case Bind(_, _, x, n) => ModeIsAName(ctx, ctx', n, s.Bind(x, v), L, fuel);
    case Resolve(x, _) =>
      if v.Genus? && ResolveIn(ctx.env, x, v.genus).Some? {
        ModeIsAName(ctx, ctx', ResolveIn(ctx.env, x, v.genus).value, s, L, fuel);
      }
    case _ =>
  }

  lemma {:induction false} ApplyNamed(ctx: Ctx, ctx': Ctx, fun: Value, arg: Value, L: seq<Layer>, fuel: nat)
    requires ctx'.env == ctx.env && ctx'.arg == ctx.arg
    ensures DenoteApply(ctx', fun, arg, L, fuel) == Named(ctx'.mode, DenoteApply(ctx, fun, arg, L, fuel))
    decreases fuel, 2, fun
  {
    hide Denote, B.Call, B.PrimOf;
    match fun
    case Closure(x, body, env) => ModeIsAName(ctx, ctx', body, env.Bind(x, arg), L, fuel);
    case Builtin(name, args) =>
      var all := args + [arg];
      if |all| >= B.Want(name) && B.PrimOf(name).Some? {
        var called := B.Call(ctx.env.phys, B.PrimOf(name).value, all);
        if called.ApplyThen? {
          ApplyNamed(ctx, ctx', args[0], called.arg, L, fuel);
        }
      }
    case _ =>
  }

  // --- a lifted run is the run of the base mode ---

  /** Below its top layer a mode with a lift is its base mode, and no other mode lifts. */
  lemma BelowIsTheBase(m: Mode)
    ensures m.Allows(OpLift) ==> Base(m).Tower() == m.Tower()[1..] && Base(m).FinalOf() == m.FinalOf()
    ensures m.Allows(OpLift) <==> m.IsPlagal() && m != Hypomixolydian
    ensures FromFinal(m.FinalOf(), m.IsPlagal()) == m
  {
  }

  /** On the layers of a mode that lifts, the lifted body runs exactly as it would as a verse of
      the base mode, which has the layers below; and both machines agree with it: the one peeled
      one layer deep over any frames, the other on its own. */
  lemma LiftedRunIsBaseRun(env: Env, mode: Mode, arg: Value, e: Expr, s: Scope, K: seq<Frame>, L: seq<Layer>, fuel: nat)
    requires mode.Allows(OpLift) && Kinds(L) == mode.Tower()
    ensures |L| == 2 && Kinds(L[1..]) == Base(mode).Tower()
    ensures var ctx, base := Ctx(env, mode, arg), Ctx(env, Base(mode), arg);
            var r := Denote(base, e, s, L[1..], fuel);
            && Agrees(base, Resume(base, Config(Eval(e, s), [], L[1..], 0), fuel), r, [], [])
            && Agrees(ctx, Resume(ctx, Config(Eval(e, s), K, L, 1), fuel), Named(mode, r), K, [L[0]])
            && Denote(ctx, Lift(e), s, L, fuel + 1) == Relayer(L[0], Named(mode, r))
  {
    hide Denote, Resume, Agrees;
    var ctx, base := Ctx(env, mode, arg), Ctx(env, Base(mode), arg);
    BelowIsTheBase(mode);
    assert |Kinds(L)| == |L| == 2 && Kinds(L[1..]) == Kinds(L)[1..];
    assert [] + L[1..] == L[1..] && [L[0]] + L[1..] == L;
    DenoteAgrees(base, e, s, [], [], L[1..], fuel);
    DenoteAgrees(ctx, e, s, K, [L[0]], L[1..], fuel);
    ModeIsAName(base, ctx, e, s, L[1..], fuel);
    LiftMeans(ctx, e, s, L, fuel + 1);
  }
}
