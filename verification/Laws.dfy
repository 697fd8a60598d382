/** The laws the liturgy promises: the monad laws in every mode, and `Lift` as a transformer's
    lift. Results are compared as an observer sees them, without the budget left over. */
module Laws {
  import opened Core
  import opened Machine
  import opened Meaning
  import opened Budget
  import opened Erasure
  import opened Adequacy
  import B = Builtins

  // --- one unfolding of the forms the laws speak of ---

  /** `m`, and then `k` on its value. */
  function Then(ctx: Ctx, r: Res, x: Sym, k: Expr, s: Scope): Res {
    if !r.Yield? || r.left == 0 then Stop(r) else Denote(ctx, k, s.Bind(x, r.v), r.L, r.left - 1)
  }

  lemma BindMeans(ctx: Ctx, md: Mode, m: Expr, x: Sym, k: Expr, s: Scope, L: seq<Layer>, fuel: nat)
    ensures Denote(ctx, Bind(md, m, x, k), s, L, fuel)
         == if fuel == 0 then Out else Then(ctx, Denote(ctx, m, s, L, fuel - 1), x, k, s)
  {
    hide Kinds, FirstFrom, DenoteForm;
  }

  lemma PureMeans(ctx: Ctx, md: Mode, m: Expr, s: Scope, L: seq<Layer>, fuel: nat)
    ensures Denote(ctx, Pure(md, m), s, L, fuel) == if fuel == 0 then Out else Denote(ctx, m, s, L, fuel - 1)
  {
    hide Kinds, FirstFrom, DenoteRest;
  }

  lemma LiftMeans(ctx: Ctx, m: Expr, s: Scope, L: seq<Layer>, fuel: nat)
    ensures Denote(ctx, Lift(m), s, L, fuel)
         == if fuel == 0 then Out
            else if |L| < 2 then Abort(WrongMode(ctx.mode, OpLift))
            else Relayer(L[0], Denote(ctx, m, s, L[1..], fuel - 1))
  {
    hide Kinds, FirstFrom, DenoteRest;
  }

  lemma VarMeans(ctx: Ctx, x: Sym, v: Value, s: Scope, L: seq<Layer>, fuel: nat)
    requires fuel > 0
    ensures Denote(ctx, Var(x), s.Bind(x, v), L, fuel) == Yield(v, L, fuel - 1)
  {
    hide DenoteRest;
  }

  lemma ApplyLamMeans(ctx: Ctx, x: Sym, k: Expr, a: Expr, s: Scope, L: seq<Layer>, fuel: nat)
    requires fuel > 2
    ensures Denote(ctx, App(Lam(x, k), a), s, L, fuel) == Then(ctx, Denote(ctx, a, s, L, fuel - 3), x, k, s)
  {
    hide Kinds, FirstFrom;
    var f := Lam(x, k);
    assert Denote(ctx, f, s, L, fuel - 1) == Yield(Closure(x, k, s), L, fuel - 2) by { LamMeans(ctx, x, k, s, L, fuel - 1); }
    assert DenoteRest(ctx, App(f, a), s, Closure(x, k, s), L, fuel - 3)
        == Then(ctx, Denote(ctx, a, s, L, fuel - 3), x, k, s);
  }

  lemma LamMeans(ctx: Ctx, x: Sym, k: Expr, s: Scope, L: seq<Layer>, fuel: nat)
    requires fuel > 0
    ensures Denote(ctx, Lam(x, k), s, L, fuel) == Yield(Closure(x, k, s), L, fuel - 1)
  {
    hide DenoteRest;
  }

  // --- the monad laws ---

  /** Left identity: binding a pure value is applying the lambda, one step sooner. */
  lemma LeftIdentity(ctx: Ctx, md: Mode, md': Mode, a: Expr, x: Sym, k: Expr, s: Scope, L: seq<Layer>, fuel: nat)
    ensures Denote(ctx, Bind(md, Pure(md', a), x, k), s, L, fuel) == Denote(ctx, App(Lam(x, k), a), s, L, fuel + 1)
  {
    hide Denote;
    BindMeans(ctx, md, Pure(md', a), x, k, s, L, fuel);
    if fuel > 0 {
      PureMeans(ctx, md', a, s, L, fuel - 1);
    }
    if fuel > 1 {
      ApplyLamMeans(ctx, x, k, a, s, L, fuel + 1);
    } else {
      TooShort(ctx, x, k, a, s, L, fuel + 1);
    }
  }

  lemma TooShort(ctx: Ctx, x: Sym, k: Expr, a: Expr, s: Scope, L: seq<Layer>, fuel: nat)
    requires fuel <= 2
    ensures Denote(ctx, App(Lam(x, k), a), s, L, fuel).Out?
  {
    if fuel == 2 { LamMeans(ctx, x, k, s, L, 1); }
  }

  /** Right identity: binding into `pure` is the computation itself. */
  lemma RightIdentity(ctx: Ctx, md: Mode, md': Mode, m: Expr, x: Sym, s: Scope, L: seq<Layer>, fuel: nat)
    ensures var b := Bind(md, m, x, Pure(md', Var(x)));
            && (var r := Denote(ctx, m, s, L, fuel); !r.Out? ==> Spare(Denote(ctx, b, s, L, fuel + 4)) == Spare(r))
            && (var r := Denote(ctx, b, s, L, fuel); !r.Out? ==> Spare(Denote(ctx, m, s, L, fuel)) == Spare(r))
  {
    hide Denote;
    ReturnsIt(ctx, md, md', m, x, s, L, fuel);
    ReturnsIt(ctx, md, md', m, x, s, L, fuel + 4);
    if !Denote(ctx, m, s, L, fuel).Out? { More(ctx, m, s, L, fuel, 3); }
    if fuel > 0 && !Denote(ctx, m, s, L, fuel - 1).Out? { More(ctx, m, s, L, fuel - 1, 1); }
  }

  lemma ReturnsIt(ctx: Ctx, md: Mode, md': Mode, m: Expr, x: Sym, s: Scope, L: seq<Layer>, fuel: nat)
    ensures Denote(ctx, Bind(md, m, x, Pure(md', Var(x))), s, L, fuel)
         == if fuel == 0 then Out else
            var r := Denote(ctx, m, s, L, fuel - 1);
            if !r.Yield? || r.left < 3 then Stop(r) else Yield(r.v, r.L, r.left - 3)
  {
    hide Denote;
    BindMeans(ctx, md, m, x, Pure(md', Var(x)), s, L, fuel);
    if fuel > 0 {
      var r := Denote(ctx, m, s, L, fuel - 1);
      if r.Yield? && r.left > 0 {
        PureMeans(ctx, md', Var(x), s.Bind(x, r.v), r.L, r.left - 1);
        if r.left > 2 {
          VarMeans(ctx, x, r.v, s, r.L, r.left - 2);
        } else if r.left == 2 {
          NoBudget(ctx, Var(x), s.Bind(x, r.v), r.L);
        }
      }
    }
  }

  lemma NoBudget(ctx: Ctx, e: Expr, s: Scope, L: seq<Layer>)
    ensures Denote(ctx, e, s, L, 0).Out?
  {
  }

  /** What the right nesting does after `m`: `f`, and then `g` in the scope `f` ran in. */
  function ThenNest(ctx: Ctx, r: Res, x: Sym, f: Expr, y: Sym, g: Expr, s: Scope): Res {
    if !r.Yield? || r.left < 2 then Stop(r)
    else Then(ctx, Denote(ctx, f, s.Bind(x, r.v), r.L, r.left - 2), y, g, s.Bind(x, r.v))
  }

  lemma NestsLeft(ctx: Ctx, md: Mode, m: Expr, x: Sym, f: Expr, y: Sym, g: Expr, s: Scope, L: seq<Layer>, fuel: nat)
    requires fuel > 1
    ensures Denote(ctx, Bind(md, Bind(md, m, x, f), y, g), s, L, fuel)
         == Then(ctx, Then(ctx, Denote(ctx, m, s, L, fuel - 2), x, f, s), y, g, s)
  {
    hide Denote;
    BindMeans(ctx, md, Bind(md, m, x, f), y, g, s, L, fuel);
    BindMeans(ctx, md, m, x, f, s, L, fuel - 1);
  }

  lemma NestsRight(ctx: Ctx, md: Mode, m: Expr, x: Sym, f: Expr, y: Sym, g: Expr, s: Scope, L: seq<Layer>, fuel: nat)
    requires fuel > 0
    ensures Denote(ctx, Bind(md, m, x, Bind(md, f, y, g)), s, L, fuel)
         == ThenNest(ctx, Denote(ctx, m, s, L, fuel - 1), x, f, y, g, s)
  {
    hide Denote;
    BindMeans(ctx, md, m, x, Bind(md, f, y, g), s, L, fuel);
    var r := Denote(ctx, m, s, L, fuel - 1);
    if r.Yield? && r.left > 0 {
      BindMeans(ctx, md, f, y, g, s.Bind(x, r.v), r.L, r.left - 1);
    }
  }

  /** Associativity: nested binds reassociate when the inner binder is not free in the
      continuation. Closures in the results may carry one more binding of `x`. */
  lemma Associativity(ctx: Ctx, md: Mode, m: Expr, x: Sym, f: Expr, y: Sym, g: Expr, s: Scope, L: seq<Layer>, fuel: nat)
    requires !Free(Held(ctx.env, x), x, Lam(y, g))
    ensures var h, l, r := Held(ctx.env, x), Bind(md, Bind(md, m, x, f), y, g), Bind(md, m, x, Bind(md, f, y, g));
            && (!Denote(ctx, l, s, L, fuel).Out? ==>
                  SameRes(h, x, Spare(Denote(ctx, l, s, L, fuel)), Spare(Denote(ctx, r, s, L, fuel))))
            && (!Denote(ctx, r, s, L, fuel).Out? ==>
                  SameRes(h, x, Spare(Denote(ctx, l, s, L, fuel + 1)), Spare(Denote(ctx, r, s, L, fuel))))
  {
    hide Denote, SameRes;
    if fuel > 0 {
      AssocAt(ctx, md, m, x, f, y, g, s, L, fuel + 1, fuel);
    }
    if fuel > 1 {
      AssocAt(ctx, md, m, x, f, y, g, s, L, fuel, fuel);
    } else {
      ShortNest(ctx, md, m, x, f, y, g, s, L, fuel);
    }
  }

  lemma ShortNest(ctx: Ctx, md: Mode, m: Expr, x: Sym, f: Expr, y: Sym, g: Expr, s: Scope, L: seq<Layer>, fuel: nat)
    requires fuel <= 1
    ensures Denote(ctx, Bind(md, Bind(md, m, x, f), y, g), s, L, fuel).Out?
    ensures fuel == 0 ==> Denote(ctx, Bind(md, m, x, Bind(md, f, y, g)), s, L, fuel).Out?
  {
    hide Denote;
    BindMeans(ctx, md, Bind(md, m, x, f), y, g, s, L, fuel);
    BindMeans(ctx, md, m, x, f, s, L, 0);
    BindMeans(ctx, md, m, x, Bind(md, f, y, g), s, L, 0);
  }

  /** Both nestings run `m` with a budget that leaves the same for what follows, or one less. */
  lemma AssocAt(ctx: Ctx, md: Mode, m: Expr, x: Sym, f: Expr, y: Sym, g: Expr, s: Scope, L: seq<Layer>,
          fl: nat, fr: nat)
    requires !Free(Held(ctx.env, x), x, Lam(y, g))
    requires fl > 1 && fr > 0 && fr <= fl <= fr + 1
    ensures var h := Held(ctx.env, x);
            var l := Denote(ctx, Bind(md, Bind(md, m, x, f), y, g), s, L, fl);
            var r := Denote(ctx, Bind(md, m, x, Bind(md, f, y, g)), s, L, fr);
            (if fl == fr then !l.Out? else !r.Out?) ==> SameRes(h, x, Spare(l), Spare(r))
  {
    hide Denote, SameRes, Free, Held, Bump, Then, ThenNest;
    NestsLeft(ctx, md, m, x, f, y, g, s, L, fl);
    NestsRight(ctx, md, m, x, f, y, g, s, L, fr);
    var r0, r1 := Denote(ctx, m, s, L, fl - 2), Denote(ctx, m, s, L, fr - 1);
    if r0.Out? {
      OutStays(ctx, x, f, y, g, s);
    } else {
      if fl == fr { More(ctx, m, s, L, fl - 2, 1); }
      AfterFirst(ctx, x, f, y, g, s, r0, r1, fl != fr);
    }
  }

  lemma OutStays(ctx: Ctx, x: Sym, f: Expr, y: Sym, g: Expr, s: Scope)
    ensures Then(ctx, Then(ctx, Out, x, f, s), y, g, s) == Out == ThenNest(ctx, Out, x, f, y, g, s)
  {
    hide Denote;
  }

  /** The rest of both nestings: the left one has a unit of budget less (`!same`) or the same. */
  lemma AfterFirst(ctx: Ctx, x: Sym, f: Expr, y: Sym, g: Expr, s: Scope, r0: Res, r1: Res, same: bool)
    requires !Free(Held(ctx.env, x), x, Lam(y, g))
    requires r1 == if same then r0 else Bump(r0, 1)
    ensures var h := Held(ctx.env, x);
            var l, r := Then(ctx, Then(ctx, r0, x, f, s), y, g, s), ThenNest(ctx, r1, x, f, y, g, s);
            !(if same then r else l).Out? ==> SameRes(h, x, Spare(l), Spare(r))
  {
    hide Denote, Free, Held, StripV, StripL;
    if r0.Yield? && r0.left > 0 && r1.left > 1 {
      var q0 := Denote(ctx, f, s.Bind(x, r0.v), r0.L, r0.left - 1);
      var q1 := Denote(ctx, f, s.Bind(x, r1.v), r1.L, r1.left - 2);
      if same && !q1.Out? {
        More(ctx, f, s.Bind(x, r1.v), r1.L, r1.left - 2, 1);
      }
      if q0.Yield? && q0.left > 0 && q1.Yield? && q1.left > 0 {
        LastBind(ctx, x, y, g, s, r0.v, q0, q1, same);
      }
    }
  }

  lemma LastBind(ctx: Ctx, x: Sym, y: Sym, g: Expr, s: Scope, v: Value, q0: Res, q1: Res, same: bool)
    requires !Free(Held(ctx.env, x), x, Lam(y, g))
    requires q1.Yield? && q1.left > 0 && q0 == if same then Bump(q1, 1) else q1
    ensures var h := Held(ctx.env, x);
            var l, r := Then(ctx, q0, y, g, s), Then(ctx, q1, y, g, s.Bind(x, v));
            !(if same then r else l).Out? ==> SameRes(h, x, Spare(l), Spare(r))
  {
    hide Denote, Held, StripV, StripL, StripS, Free;
    Unseen(Held(ctx.env, x), x, y, g, s, v, q1.v);
    Irrelevant(ctx, x, g, s.Bind(y, q1.v), s.Bind(x, v).Bind(y, q1.v), q1.L, q1.L, q1.left - 1);
    var l1 := Denote(ctx, g, s.Bind(y, q1.v), q1.L, q1.left - 1);
    if same && !l1.Out? {
      More(ctx, g, s.Bind(y, q1.v), q1.L, q1.left - 1, 1);
    }
  }

  /** A binding under the one that shadows it, or of a name not mentioned, is not seen. */
  lemma Unseen(h: bool, x: Sym, y: Sym, g: Expr, s: Scope, v: Value, w: Value)
    requires !Free(h, x, Lam(y, g))
    ensures Alike(h, x, g, s.Bind(y, w), s.Bind(x, v).Bind(y, w))
  {
    hide Free, StripV;
    FreeLam(h, x, y, g);
    assert StripS(h, x, false, s.Bind(x, v)) == StripS(h, x, false, s);
  }

  /** Freshness cannot be dropped: here the reassociated bind sees a binder the other does not. */
  lemma AssociativityNeedsFreshness(ctx: Ctx, md: Mode, L: seq<Layer>)
    requires FindPedal(ctx.env.pedals, "q") != Some(Num(F64(0)))
    ensures var n := Num(F64(0));
            var l := Bind(md, Bind(md, Lit(n), "q", Lit(n)), "y", Var("q"));
            var r := Bind(md, Lit(n), "q", Bind(md, Lit(n), "y", Var("q")));
            Spare(Denote(ctx, l, Empty, L, 9)) != Spare(Denote(ctx, r, Empty, L, 9))
  {
    hide Denote;
    var n := Num(F64(0));
    NestsLeft(ctx, md, Lit(n), "q", Lit(n), "y", Var("q"), Empty, L, 9);
    NestsRight(ctx, md, Lit(n), "q", Lit(n), "y", Var("q"), Empty, L, 9);
    LitMeans(ctx, n, Empty, L, 7);
    LitMeans(ctx, n, Empty, L, 8);
    LitMeans(ctx, n, Empty.Bind("q", n), L, 5);
    UnseenVar(ctx, n, L, 3);
    SeenVar(ctx, n, L, 3);
  }

  lemma LitMeans(ctx: Ctx, v: Value, s: Scope, L: seq<Layer>, fuel: nat)
    requires fuel > 0
    ensures Denote(ctx, Lit(v), s, L, fuel) == Yield(v, L, fuel - 1)
  {
    hide DenoteRest;
  }

  lemma UnseenVar(ctx: Ctx, n: Value, L: seq<Layer>, fuel: nat)
    requires fuel > 0
    ensures var r := Denote(ctx, Var("q"), Empty.Bind("y", n), L, fuel);
            match FindPedal(ctx.env.pedals, "q") case Some(v) => r == Yield(v, L, fuel - 1) case None => r.Abort?
  {
    hide DenoteRest;
    assert B.PrimOf("q").None?;
    assert Empty.Bind("y", n).Lookup("q") == Empty.Lookup("q") == None;
  }

  lemma SeenVar(ctx: Ctx, n: Value, L: seq<Layer>, fuel: nat)
    requires fuel > 0
    ensures Denote(ctx, Var("q"), Empty.Bind("q", n).Bind("y", n), L, fuel) == Yield(n, L, fuel - 1)
  {
    hide DenoteRest;
    assert Empty.Bind("q", n).Bind("y", n).Lookup("q") == Empty.Bind("q", n).Lookup("q");
  }

  // --- the laws as a machine run shows them ---

  /** Over any stack and tower, at any lift depth: the two runs are one run, or both are still
      going when their budgets end. */
  lemma LeftIdentityOnMachine(ctx: Ctx, md: Mode, md': Mode, a: Expr, x: Sym, k: Expr, s: Scope,
                              K: seq<Frame>, hi: seq<Layer>, L: seq<Layer>, fuel: nat)
    ensures var l := Resume(ctx, Config(Eval(Bind(md, Pure(md', a), x, k), s), K, hi + L, |hi|), fuel);
            var r := Resume(ctx, Config(Eval(App(Lam(x, k), a), s), K, hi + L, |hi|), fuel + 1);
            l == r || (l.OutOfFuel? && r.OutOfFuel?)
  {
    hide Denote, Resume, After;
    LeftIdentity(ctx, md, md', a, x, k, s, L, fuel);
    DenoteAgrees(ctx, Bind(md, Pure(md', a), x, k), s, K, hi, L, fuel);
    DenoteAgrees(ctx, App(Lam(x, k), a), s, K, hi, L, fuel + 1);
  }

  /** A finished verse, and one that means the same, end alike with a step to spare. */
  lemma MeaningEnds(env: Env, mode: Mode, b1: Expr, b2: Expr, arg: Value, st: Value, f1: nat, f2: nat)
    requires !Meant(env, mode, b1, arg, st, f1).Out?
    requires Spare(Meant(env, mode, b1, arg, st, f1)) == Spare(Meant(env, mode, b2, arg, st, f2))
    ensures RunVerse(env, mode, b1, arg, st, f1).Ended? ==>
              RunVerse(env, mode, b2, arg, st, f2 + 1) == RunVerse(env, mode, b1, arg, st, f1)
  {
    hide Denote, Resume, Finish;
    RunIsMeaning(env, mode, b1, arg, st, f1);
    RunIsMeaning(env, mode, b2, arg, st, f2 + 1);
    More(Ctx(env, mode, arg), b2, Empty, BuildTower(mode, st), f2, 1);
  }

  /** A verse followed by `pure` of its value ends exactly when the verse does, and so. */
  lemma RightIdentityOfVerses(env: Env, mode: Mode, md: Mode, md': Mode, m: Expr, x: Sym, arg: Value,
          st: Value, fuel: nat)
    ensures var b := Bind(md, m, x, Pure(md', Var(x)));
            && (var r := RunVerse(env, mode, m, arg, st, fuel); r.Ended? ==> RunVerse(env, mode, b, arg, st, fuel + 5) == r)
            && (var r := RunVerse(env, mode, b, arg, st, fuel); r.Ended? ==> RunVerse(env, mode, m, arg, st, fuel + 1) == r)
  {
    hide Denote, RunVerse, Resume;
    var b := Bind(md, m, x, Pure(md', Var(x)));
    RightIdentity(Ctx(env, mode, arg), md, md', m, x, Empty, BuildTower(mode, st), fuel);
    RunIsMeaning(env, mode, m, arg, st, fuel);
    RunIsMeaning(env, mode, b, arg, st, fuel);
    if !Meant(env, mode, m, arg, st, fuel).Out? { MeaningEnds(env, mode, m, b, arg, st, fuel, fuel + 4); }
    if !Meant(env, mode, b, arg, st, fuel).Out? { MeaningEnds(env, mode, b, m, arg, st, fuel, fuel); }
  }

  /** An ending with one name erased from what closures carry. */
  function StripE(h: bool, x: Sym, e: Ending): Ending {
    match e
    case Cadence(o) =>
      Cadence(Outcome(if o.value.Some? then Some(StripV(h, x, o.value.value)) else None, StripV(h, x, o.state), o.plan, o.committed))
    case Broken(User(v)) => Broken(User(StripV(h, x, v)))
    case _ => e
  }

  lemma {:induction false} TopStripped(h: bool, x: Sym, L: seq<Layer>)
    ensures TopState(StripL(h, x, L)) == StripV(h, x, TopState(L)) && TopPlan(StripL(h, x, L)) == TopPlan(L)
  {
    if L != [] {
      assert StripL(h, x, L)[1..] == StripL(h, x, L[1..]);
      TopStripped(h, x, L[1..]);
    }
  }

  lemma ObservedAlike(h: bool, x: Sym, r1: Res, r2: Res)
    requires !r1.Out? && SameRes(h, x, Spare(r1), Spare(r2))
    ensures !r2.Out? && StripE(h, x, Observed(r1)) == StripE(h, x, Observed(r2))
  {
    hide StripV, StripL;
    if r1.Yield? || r1.Halted? {
      TopStripped(h, x, r1.L);
      TopStripped(h, x, r2.L);
    }
  }

  /** A result that is not out of budget shows with one step more. */
  lemma ShowsSoon(env: Env, mode: Mode, body: Expr, arg: Value, st: Value, fuel: nat)
    requires !Meant(env, mode, body, arg, st, fuel).Out?
    ensures RunVerse(env, mode, body, arg, st, fuel + 1) == Ended(Observed(Meant(env, mode, body, arg, st, fuel)))
  {
    hide Denote, RunVerse;
    More(Ctx(env, mode, arg), body, Empty, BuildTower(mode, st), fuel, 1);
    RunIsMeaning(env, mode, body, arg, st, fuel + 1);
  }

  /** Verses that nest their binds either way end together, and alike up to one binding of `x`
      that closures may carry. */
  lemma AssociativityOfVerses(env: Env, mode: Mode, md: Mode, m: Expr, x: Sym, f: Expr, y: Sym, g: Expr,
          arg: Value, st: Value, fuel: nat)
    requires !Free(Held(env, x), x, Lam(y, g))
    ensures var h, l, r := Held(env, x), Bind(md, Bind(md, m, x, f), y, g), Bind(md, m, x, Bind(md, f, y, g));
            var runL, runR := RunVerse(env, mode, l, arg, st, fuel), RunVerse(env, mode, r, arg, st, fuel);
            && (runL.Ended? ==> var q := RunVerse(env, mode, r, arg, st, fuel + 1); q.Ended? && StripE(h, x, q.e) == StripE(h, x, runL.e))
            && (runR.Ended? ==> var q := RunVerse(env, mode, l, arg, st, fuel + 2); q.Ended? && StripE(h, x, q.e) == StripE(h, x, runR.e))
  {
    hide Denote, RunVerse, Free, Held, SameRes, StripE, Observed;
    var h, l, r := Held(env, x), Bind(md, Bind(md, m, x, f), y, g), Bind(md, m, x, Bind(md, f, y, g));
    Associativity(Ctx(env, mode, arg), md, m, x, f, y, g, Empty, BuildTower(mode, st), fuel);
    RunIsMeaning(env, mode, l, arg, st, fuel);
    RunIsMeaning(env, mode, r, arg, st, fuel);
    var ml, mr := Meant(env, mode, l, arg, st, fuel), Meant(env, mode, r, arg, st, fuel);
    if !ml.Out? {
      ObservedAlike(h, x, ml, mr);
      ShowsSoon(env, mode, r, arg, st, fuel);
    }
    if !mr.Out? {
      var ml' := Meant(env, mode, l, arg, st, fuel + 1);
      Alikeness(h, x, ml', mr);
      ObservedAlike(h, x, mr, ml');
      ShowsSoon(env, mode, l, arg, st, fuel + 1);
    }
  }

  lemma Alikeness(h: bool, x: Sym, a: Res, b: Res)
    requires SameRes(h, x, Spare(a), Spare(b))
    ensures SameRes(h, x, Spare(b), Spare(a))
  {
  }
}
