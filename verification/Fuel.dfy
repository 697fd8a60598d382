/** The step budget: slicing a run changes nothing, the kernel's driver is one long run, and
    a fugue that never cadences keeps asking for more in bounded stack (celebrare.rs). */
module Fuel {
  import opened Core
  import opened Machine
  import opened Trampoline
  import I = Invariant
  import opened Builtins

  // --- slicing ---

  function Again(ctx: Ctx, r: Run, fuel: nat): Run {
    match r
    case Ended(e) => r
    case OutOfFuel(c) => Resume(ctx, c, fuel)
  }

  /** Running with `f1` and resuming with `f2` is running once with `f1 + f2`. */
  lemma {:induction false} Split(ctx: Ctx, c: Config, f1: nat, f2: nat)
    ensures Resume(ctx, c, f1 + f2) == Again(ctx, Resume(ctx, c, f1), f2)
    decreases f1
  {
    hide Step;
    if f1 > 0 {
      match Step(ctx, c)
      case Next(c') => Split(ctx, c', f1 - 1, f2);
      case End(_) =>
    }
  }

  function Sum(slices: seq<nat>): nat {
    if slices == [] then 0 else slices[0] + Sum(slices[1..])
  }

  function Sliced(ctx: Ctx, r: Run, slices: seq<nat>): Run
    decreases |slices|
  {
    if slices == [] then r else Sliced(ctx, Again(ctx, r, slices[0]), slices[1..])
  }

  /** However the same total is sliced, the run is the same. */
  lemma {:induction false} SlicesAgree(ctx: Ctx, c: Config, first: nat, slices: seq<nat>)
    ensures Sliced(ctx, Resume(ctx, c, first), slices) == Resume(ctx, c, first + Sum(slices))
    decreases |slices|
  {
    hide Resume;
    if slices != [] {
      Split(ctx, c, first, slices[0]);
      SlicesAgree(ctx, c, first + slices[0], slices[1..]);
    }
  }

  /** A finished result does not depend on fuel left over. */
  lemma ExtraFuelIsIdle(ctx: Ctx, c: Config, fuel: nat, extra: nat)
    requires Resume(ctx, c, fuel).Ended?
    ensures Resume(ctx, c, fuel + extra) == Resume(ctx, c, fuel)
  {
    hide Resume;
    Split(ctx, c, fuel, extra);
  }

  // --- the kernel's driver ---

  const FUEL_SLICE: nat := 20_000
  const MAX_SLICES: nat := 500

  /** Run one verse in slices, giving other tasks a turn between them. */
  method RunFull(env: Env, mode: Mode, body: Expr, arg: Value) returns (end: Option<Ending>)
    ensures match Machine.RunVerse(env, mode, body, arg, EMPTY_STATE, FUEL_SLICE * MAX_SLICES)
            case Ended(e) => end == Some(e) && !e.Panic?
            case OutOfFuel(_) => end.None?
  {
    hide Resume, I.Inv;
    ghost var ctx, c0 := Ctx(env, mode, arg), Initial(mode, body, EMPTY_STATE);
    var m;
    m, end := Trampoline.RunVerse(env, mode, body, arg, EMPTY_STATE, FUEL_SLICE);
    ghost var spent := FUEL_SLICE;
    var slices := 0;
    while end.None?
      invariant fresh(m) && m.mode == mode && m.arg == arg
      invariant 0 <= slices < MAX_SLICES && spent == FUEL_SLICE * (slices + 1)
      invariant match Resume(ctx, c0, spent)
                case Ended(e) => end == Some(e) && !e.Panic?
                case OutOfFuel(c) => end.None? && m.View() == c && m.Valid()
      decreases end.None?, MAX_SLICES - slices
    {
      slices := slices + 1;
      if slices >= MAX_SLICES { return; }
      Split(ctx, c0, spent, FUEL_SLICE);
      end := m.Run(env, FUEL_SLICE);
      spent := spent + FUEL_SLICE;
    }
    Split(ctx, c0, spent, FUEL_SLICE * MAX_SLICES - spent);
  }

  // --- the eternal stretto ---

  const SELF: Expr := Lam("self", Lam("x", App(Var("self"), Var("x"))))

  /** fix (\self x -> self x), applied. */
  function Eternal(n: Value): Expr {
    App(Fix(SELF), Lit(n))
  }

  /** The state every round comes back to: the fixpoint about to be applied. */
  function Round(a: Expr, s: Scope, K: seq<Frame>, t: seq<Layer>, d: nat): Config {
    Config(Eval(App(Fix(SELF), a), s), K, t, d)
  }

  /** No state of the first `n` steps is taller than `h`, and none of them ends. */
  predicate Low(ctx: Ctx, c: Config, n: nat, h: nat)
    decreases n
  {
    |c.stack| <= h && (n == 0 || (Step(ctx, c).Next? && Low(ctx, Step(ctx, c).c, n - 1, h)))
  }

  lemma {:induction false} LowRuns(ctx: Ctx, c: Config, n: nat, h: nat)
    requires Low(ctx, c, n, h)
    ensures Resume(ctx, c, n).OutOfFuel? && |Resume(ctx, c, n).c.stack| <= h
    decreases n
  {
    hide Step;
    if n > 0 { LowRuns(ctx, Step(ctx, c).c, n - 1, h); }
  }

  lemma {:induction false} LowPrefix(ctx: Ctx, c: Config, n: nat, m: nat, h: nat)
    requires Low(ctx, c, n, h) && m <= n
    ensures Low(ctx, c, m, h)
    decreases n
  {
    hide Step;
    if m > 0 { LowPrefix(ctx, Step(ctx, c).c, n - 1, m - 1, h); }
  }

  /** `n` steps lead from `c` to `c'` without the stack growing past `h`. */
  predicate Leads(ctx: Ctx, c: Config, n: nat, c': Config, h: nat) {
    Low(ctx, c, n, h) && Resume(ctx, c, n) == OutOfFuel(c')
  }

  lemma {:induction false} LeadsOn(ctx: Ctx, c: Config, n: nat, c': Config, m: nat, h: nat)
    requires Leads(ctx, c, n, c', h) && Low(ctx, c', m, h)
    ensures Low(ctx, c, n + m, h) && Resume(ctx, c, n + m) == Resume(ctx, c', m)
    decreases n
  {
    hide Step;
    if n > 0 { LeadsOn(ctx, Step(ctx, c).c, n - 1, c', m, h); }
  }

  lemma OneStep(ctx: Ctx, c: Config, n: nat, c': Config, c'': Config, h: nat)
    requires Leads(ctx, c, n, c', h) && Step(ctx, c') == Next(c'') && |c''.stack| <= h
    ensures Leads(ctx, c, n + 1, c'', h)
  {
    hide Step;
    assert Low(ctx, c', 0, h) by { LowEnd(ctx, c, n, c', h); }
    assert Low(ctx, c', 1, h) && Resume(ctx, c', 1) == Resume(ctx, c'', 0);
    LeadsOn(ctx, c, n, c', 1, h);
  }

  lemma {:induction false} LowEnd(ctx: Ctx, c: Config, n: nat, c': Config, h: nat)
    requires Leads(ctx, c, n, c', h)
    ensures |c'.stack| <= h
    decreases n
  {
    hide Step;
    if n > 0 { LowEnd(ctx, Step(ctx, c).c, n - 1, c', h); }
  }

  /** An expression that pushes a frame, a value that meets one, and an expression that is a value. */
  lemma Opens(ctx: Ctx, c: Config, n: nat, e: Expr, s: Scope, K: seq<Frame>, t: seq<Layer>, d: nat, f: Frame,
          e': Expr, h: nat)
    requires Leads(ctx, c, n, Config(Eval(e, s), K, t, d), h) && |K| < h
    requires (e.App? && e.f == e' && f == AppArg(e.a, s)) || (e.Fix? && e.f == e' && f == FixK(e.f, s))
    ensures Leads(ctx, c, n + 1, Config(Eval(e', s), K + [f], t, d), h)
  {
    hide Leads, Unwind, Finish, FirstFrom, LookupVar;
    OneStep(ctx, c, n, Config(Eval(e, s), K, t, d), Config(Eval(e', s), K + [f], t, d), h);
  }

  lemma Becomes(ctx: Ctx, c: Config, n: nat, e: Expr, s: Scope, K: seq<Frame>, t: seq<Layer>, d: nat, v: Value, h: nat)
    requires Leads(ctx, c, n, Config(Eval(e, s), K, t, d), h)
    requires e == Lit(v) || (e.Var? && s.Lookup(e.x) == Some(v)) || (e.Lam? && v == Closure(e.x, e.body, s))
    ensures Leads(ctx, c, n + 1, Config(Ret(v), K, t, d), h)
  {
    hide Unwind, Finish, FirstFrom, Step, Low, Resume;
    LowEnd(ctx, c, n, Config(Eval(e, s), K, t, d), h);
    assert Step(ctx, Config(Eval(e, s), K, t, d)) == Next(Config(Ret(v), K, t, d)) by {
      StepEval(ctx, e, s, K, t, d);
    }
    OneStep(ctx, c, n, Config(Eval(e, s), K, t, d), Config(Ret(v), K, t, d), h);
  }

  lemma StepEval(ctx: Ctx, e: Expr, s: Scope, K: seq<Frame>, t: seq<Layer>, d: nat)
    ensures var c := Config(Eval(e, s), K, t, d); Step(ctx, c) == Settle(EvalStep(ctx, c, e, s))
  {
  }

  lemma Meets(ctx: Ctx, c: Config, n: nat, v: Value, K: seq<Frame>, f: Frame, t: seq<Layer>, d: nat, c': Config, h: nat)
    requires Leads(ctx, c, n, Config(Ret(v), K + [f], t, d), h)
    requires ValueStep(ctx, Config(Ret(v), K, t, d), f, v) == Go(c') && |c'.stack| <= h
    ensures Leads(ctx, c, n + 1, c', h)
  {
    hide Leads, ValueStep, EvalStep;
    assert (K + [f])[..|K|] == K;
    OneStep(ctx, c, n, Config(Ret(v), K + [f], t, d), c', h);
  }

  const INNER: Expr := App(Var("self"), Var("x"))

  function Named(s: Scope): Scope {
    s.Bind("self", SelfRef(SELF, s))
  }

  /** Five steps tie the knot and yield the looping function. */
  lemma KnotTies(ctx: Ctx, c: Config, a: Expr, s: Scope, K: seq<Frame>, t: seq<Layer>, d: nat, h: nat)
    requires c == Round(a, s, K, t, d) && h == |K| + 2
    ensures Leads(ctx, c, 5, Config(Ret(Closure("x", INNER, Named(s))), K + [AppArg(a, s)], t, d), h)
  {
    hide Leads, EvalStep, Unwind, Finish, FirstFrom, Call, PrimOf;
    var arg := AppArg(a, s);
    var fun := Closure("self", Lam("x", INNER), s);
    Here(ctx, c, h);
    Opens(ctx, c, 0, App(Fix(SELF), a), s, K, t, d, arg, Fix(SELF), h);
    Opens(ctx, c, 1, Fix(SELF), s, K + [arg], t, d, FixK(SELF, s), SELF, h);
    Becomes(ctx, c, 2, SELF, s, K + [arg] + [FixK(SELF, s)], t, d, fun, h);
    Meets(ctx, c, 3, fun, K + [arg], FixK(SELF, s), t, d, Config(Eval(Lam("x", INNER), Named(s)), K + [arg], t, d), h);
    Becomes(ctx, c, 4, Lam("x", INNER), Named(s), K + [arg], t, d, Closure("x", INNER, Named(s)), h);
  }

  /** Three more apply it to its argument. */
  lemma ArgumentArrives(ctx: Ctx, c: Config, a: Expr, v: Value, s: Scope, K: seq<Frame>, t: seq<Layer>, d: nat, h: nat)
    requires a == Lit(v) || (a.Var? && s.Lookup(a.x) == Some(v))
    requires h == |K| + 2
    requires Leads(ctx, c, 5, Config(Ret(Closure("x", INNER, Named(s))), K + [AppArg(a, s)], t, d), h)
    ensures Leads(ctx, c, 8, Config(Eval(INNER, Named(s).Bind("x", v)), K, t, d), h)
  {
    hide Leads, EvalStep, Unwind, Finish, FirstFrom, Call, PrimOf;
    var body := Closure("x", INNER, Named(s));
    Meets(ctx, c, 5, body, K, AppArg(a, s), t, d, Config(Eval(a, s), K + [AppCall(body)], t, d), h);
    Becomes(ctx, c, 6, a, s, K + [AppCall(body)], t, d, v, h);
    Meets(ctx, c, 7, v, K, AppCall(body), t, d, Config(Eval(INNER, Named(s).Bind("x", v)), K, t, d), h);
  }

  /** Five more call the function's own name. */
  lemma SelfReenters(ctx: Ctx, c: Config, v: Value, s: Scope, K: seq<Frame>, t: seq<Layer>, d: nat, h: nat)
    requires h == |K| + 2
    requires Leads(ctx, c, 8, Config(Eval(INNER, Named(s).Bind("x", v)), K, t, d), h)
    ensures Leads(ctx, c, 13, Round(Var("$stretto"), s.Bind("$stretto", v), K, t, d), h)
  {
    hide Leads, EvalStep, Unwind, Finish, FirstFrom, Call, PrimOf;
    var self, s2 := SelfRef(SELF, s), Named(s).Bind("x", v);
    Opens(ctx, c, 8, INNER, s2, K, t, d, AppArg(Var("x"), s2), Var("self"), h);
    assert s2.Lookup("self") == Named(s).Lookup("self") == Some(self);
    Becomes(ctx, c, 9, Var("self"), s2, K + [AppArg(Var("x"), s2)], t, d, self, h);
    Meets(ctx, c, 10, self, K, AppArg(Var("x"), s2), t, d, Config(Eval(Var("x"), s2), K + [AppCall(self)], t, d), h);
    Becomes(ctx, c, 11, Var("x"), s2, K + [AppCall(self)], t, d, v, h);
    Meets(ctx, c, 12, v, K, AppCall(self), t, d, Round(Var("$stretto"), s.Bind("$stretto", v), K, t, d), h);
  }

  /** One round: thirteen steps, two frames above the stack it started on, back where it was
      with one more binding in scope. */
  lemma OneRound(ctx: Ctx, a: Expr, v: Value, s: Scope, K: seq<Frame>, t: seq<Layer>, d: nat)
    requires a == Lit(v) || (a == Var("$stretto") && s.Lookup("$stretto") == Some(v))
    ensures Leads(ctx, Round(a, s, K, t, d), 13, Round(Var("$stretto"), s.Bind("$stretto", v), K, t, d), |K| + 2)
  {
    hide *;
    KnotTies(ctx, Round(a, s, K, t, d), a, s, K, t, d, |K| + 2);
    ArgumentArrives(ctx, Round(a, s, K, t, d), a, v, s, K, t, d, |K| + 2);
    SelfReenters(ctx, Round(a, s, K, t, d), v, s, K, t, d, |K| + 2);
  }

  lemma Here(ctx: Ctx, c: Config, h: nat)
    requires |c.stack| <= h
    ensures Leads(ctx, c, 0, c, h)
  {
  }

  lemma {:induction false} EternalIsLow(ctx: Ctx, a: Expr, v: Value, s: Scope, K: seq<Frame>, t: seq<Layer>,
          d: nat, n: nat)
    requires a == Lit(v) || (a == Var("$stretto") && s.Lookup("$stretto") == Some(v))
    ensures Low(ctx, Round(a, s, K, t, d), n, |K| + 2)
    decreases n
  {
    hide Low, Resume;
    OneRound(ctx, a, v, s, K, t, d);
    if n < 13 {
      assert Leads(ctx, Round(a, s, K, t, d), 13, Round(Var("$stretto"), s.Bind("$stretto", v), K, t, d), |K| + 2);
      LowPrefix(ctx, Round(a, s, K, t, d), 13, n, |K| + 2);
    } else {
      var s' := s.Bind("$stretto", v);
      EternalIsLow(ctx, Var("$stretto"), v, s', K, t, d, n - 13);
      LeadsOn(ctx, Round(a, s, K, t, d), 13, Round(Var("$stretto"), s', K, t, d), n - 13, |K| + 2);
    }
  }

  /** The eternal stretto never cadences, in any mode, scope and stack, and for no budget does
      its stack grow by more than two frames. */
  lemma EternalNeverCadences(ctx: Ctx, n: Value, s: Scope, K: seq<Frame>, t: seq<Layer>, d: nat, fuel: nat)
    ensures var r := Resume(ctx, Config(Eval(Eternal(n), s), K, t, d), fuel);
            r.OutOfFuel? && |r.c.stack| <= |K| + 2
  {
    hide Low, Resume;
    EternalIsLow(ctx, Lit(n), n, s, K, t, d, fuel);
    LowRuns(ctx, Round(Lit(n), s, K, t, d), fuel, |K| + 2);
  }
}
