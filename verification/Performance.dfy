/** From the source text's tokens to the run: what parsing and checking together buy. Whatever the
    parser returns has none of the expressions the run-time theorems exclude. */
module Performance {
  import opened Core
  import opened Machine
  import opened Unification
  import opened Inference
  import opened Typing
  import opened Verses
  import opened Syntax
  import opened TypedValues
  import opened Accepted
  import opened Closings
  import opened Assignment
  import E = Erasure
  import M = ModeSafety
  import G = Grammar
  import P = Printing
  import S = Score

  /** Answers are expressions and pedals literals, as the parser reads them. */
  predicate ParsedProgram(fugues: seq<Fugue>) {
    && (forall i :: 0 <= i < |Answers(fugues)| ==> P.Expressible(Answers(fugues)[i].body))
    && forall i, j :: 0 <= i < |fugues| && 0 <= j < |fugues[i].pedals| ==>
         var v := fugues[i].pedals[j].value; v.Num? || v.Str? || v.Bool?
  }

  /** What the theorems about runs ask of an expression. */
  predicate Sober(e: Expr) {
    FixFree(e) && M.Plain(e) && forall held :: WellFormed(held, e)
  }

  lemma WholeIsSober(e: Expr)
    requires !e.Fix? && (e.Lit? ==> e.v.Num? || e.v.Str? || e.v.Bool?) && forall m :: m in Subs(e) ==> Sober(m)
    ensures Sober(e)
  {
    forall i | 0 <= i < |Subs(e)| ensures Sober(Subs(e)[i]) { assert Subs(e)[i] in Subs(e); }
    forall held: bool ensures WellFormed(held, e) { WholeIsFormed(held, e); }
  }

  lemma WholeIsFormed(held: bool, e: Expr)
    requires !e.Fix? && (e.Lit? ==> e.v.Num? || e.v.Str? || e.v.Bool?) && forall m :: m in Subs(e) ==> Sober(m)
    ensures WellFormed(held, e)
  {
    hide FixFree, M.Plain, E.Free;
    match e
    case Lit(_) | Var(_) | Arg | Ask(_) | Nihil | Lege =>
    case Lam(_, b) => assert b in Subs(e);
    case App(f, a) => assert f in Subs(e) && a in Subs(e);
    case If(c, t, f) => assert c in Subs(e) && t in Subs(e) && f in Subs(e);
    case Bind(_, m, _, k) => assert m in Subs(e) && k in Subs(e);
    case Recipe(m, _, h) => assert m in Subs(e) && h in Subs(e);
    case Resolve(_, n) => assert n in Subs(e);
    case Pure(_, m) => assert m in Subs(e);
    case Return(_, m) => assert m in Subs(e);
    case Clama(m) => assert m in Subs(e);
    case Pone(m) => assert m in Subs(e);
    case Mitte(m) => assert m in Subs(e);
    case Perage(m) => assert m in Subs(e);
    case Lift(m) => assert m in Subs(e);
  }

  lemma {:induction false} ExpressibleIsSober(e: Expr)
    requires P.Expressible(e)
    ensures Sober(e)
  {
    hide G.WordOf, Sober;
    match e
    case Lit(_) | Var(_) | Arg | Lege | Ask(_) => WholeIsSober(e);
    case Lam(_, b) => ExpressibleIsSober(b); WholeIsSober(e);
    case App(f, a) => ExpressibleIsSober(f); ExpressibleIsSober(a); WholeIsSober(e);
    case Resolve(_, n) => ExpressibleIsSober(n); WholeIsSober(e);
    case Pure(_, m) => ExpressibleIsSober(m); WholeIsSober(e);
    case Lift(m) => ExpressibleIsSober(m); WholeIsSober(e);
    case Pone(m) => ExpressibleIsSober(m); WholeIsSober(e);
  }

  lemma {:induction false} ShapedIsSober(mode: Mode, b: Expr)
    requires S.Shaped(mode, b)
    ensures Sober(b)
  {
    hide G.WordOf, P.Expressible, Sober;
    match b {
      case Return(_, e) => ExpressibleIsSober(e);
      case Nihil =>
      case Clama(e) => ExpressibleIsSober(e);
      case Perage(e) => ExpressibleIsSober(e);
      case If(c, t, f) =>
        ExpressibleIsSober(c);
        ShapedIsSober(mode, t);
        ShapedIsSober(mode, f);
      case Bind(_, e, _, k) =>
        ShapedIsSober(mode, k);
        if S.IsEffect(b) {
          ExpressibleIsSober(e.m);
          WholeIsSober(e);
        } else {
          ExpressibleIsSober(e);
        }
    }
    WholeIsSober(b);
  }

  lemma ProgramIsSober(fugues: seq<Fugue>)
    requires ParsedProgram(fugues)
    ensures FitProgram(fugues) && FixFreeProgram(fugues) && M.PlainProgram(fugues)
  {
    hide P.Expressible, Answers;
    forall i | 0 <= i < |Answers(fugues)| ensures Sober(Answers(fugues)[i].body) { ExpressibleIsSober(Answers(fugues)[i].body); }
  }

  /** What the parser and the checker have let pass, and where it may run: no cell that is dark is
      read before it is written, and no lift is called where it finds no layer. */
  predicate Cleared(toks: G.Toks, c: G.Cursor, fugues: seq<Fugue>, lv: nat, v: Versus, dark: nat) {
    && c.pos <= |toks| && S.ParseStmts(toks, c, v.mode).Ok? && v.body == S.ParseStmts(toks, c, v.mode).val
    && ParsedProgram(fugues)
    && CheckVersus(fugues, lv, v).Ok? && Unanimous(CheckVersus(fugues, lv, v).val)
    && Careful(RunWorld(fugues, [], dark), lv, |v.mode.Tower()|, v.body)
    && (|v.mode.Tower()| == 1 || M.LiftsAtHome(fugues, lv, |v.mode.Tower()|, v.body))
  }

  /** What a run may end in beside a cadence. */
  predicate Allowed(run: Run) {
    run.Ended? && run.e.Broken? ==> run.e.d.Silent? || run.e.d.Premature? || run.e.d.Unresolved? || run.e.d.User?
  }

  lemma ParsedIsSober(toks: G.Toks, c: G.Cursor, fugues: seq<Fugue>, lv: nat, v: Versus, dark: nat)
    requires Cleared(toks, c, fugues, lv, v, dark)
    ensures Sober(v.body) && FitProgram(fugues) && FixFreeProgram(fugues) && M.PlainProgram(fugues)
  {
    hide S.ParseStmts, ParsedProgram, CheckVersus, Unanimous, Careful, Sober, FitProgram;
    S.ParsedIsShaped(toks, c, v.mode);
    ShapedIsSober(v.mode, v.body);
    ProgramIsSober(fugues);
  }

  /** A verse that is parsed and checked, in a unanimous state, ends, if it ends, in a cadence of its
      types, in silence, in a premature commit, in a name without an answer or in a throw of its
      type, and in nothing else: at every closing that its input and its cells fit. */
  lemma ParsedVersesGoRight(toks: G.Toks, c: G.Cursor, fugues: seq<Fugue>, lv: nat, v: Versus, dark: nat,
          phys: Physics, arg: Value, st: Value, fuel: nat)
    requires Cleared(toks, c, fugues, lv, v, dark) && M.FirstOrder(arg) && M.FirstOrder(st)
    ensures exists th :: Closes(th, CheckVersus(fugues, lv, v).val)
    ensures var run := RunVerse(EnvOf(fugues, phys), v.mode, v.body, arg, st, fuel);
            forall th :: Fair(fugues, lv, v, th, dark, arg, st) ==> GoesRight(fugues, lv, v, th, dark, run) && Allowed(run)
  {
    hide S.ParseStmts, ParsedProgram, CheckVersus, Closes, Unanimous, Careful, FixFree, FixFreeProgram, M.Plain, M.PlainProgram, WellFormed, FitProgram;
    hide GoesRight, RunVerse, Fair, EnvOf, Allowed;
    ParsedIsSober(toks, c, fugues, lv, v, dark);
    AcceptedVersesDoNotGoWrong(fugues, lv, v, dark, phys, arg, st, fuel);
    M.CheckedVersesKeepTheirMode(fugues, lv, v, phys, arg, st, fuel);
    var run := RunVerse(EnvOf(fugues, phys), v.mode, v.body, arg, st, fuel);
    forall th | Fair(fugues, lv, v, th, dark, arg, st) ensures Allowed(run) { RightIsAllowed(fugues, lv, v, th, dark, run); }
  }

  lemma RightIsAllowed(fugues: seq<Fugue>, lv: nat, v: Versus, th: seq<Type>, dark: nat, run: Run)
    requires GoesRight(fugues, lv, v, th, dark, run) && (run.Ended? && run.e.Broken? ==> !run.e.d.WrongMode?)
    ensures Allowed(run)
  {
    hide HasV, HasType, Reads;
  }

  /** On data, all of this is decided before the run: it goes right if the types of the input and of
      the seed unify with the verse's own. */
  lemma ParsedDataGoesRight(toks: G.Toks, c: G.Cursor, fugues: seq<Fugue>, lv: nat, v: Versus, dark: nat,
          phys: Physics, arg: Value, st: Value, fuel: nat)
    requires Cleared(toks, c, fugues, lv, v, dark) && M.FirstOrder(arg) && M.FirstOrder(st)
    requires Literal(arg) && (CellType(v.mode, dark, st).Some? ==> Literal(st)) && (v.mode.Hypolydian? ==> dark > 0)
    ensures var e, ta, ts := CheckVersus(fugues, lv, v).val, TypeOfValue(arg), CellType(v.mode, dark, st);
            && Good(e) && |e.st| >= 2 && InRange(|e.st|, ta) && (ts.Some? ==> InRange(|e.st|, ts.value))
            && var run := RunVerse(EnvOf(fugues, phys), v.mode, v.body, arg, st, fuel);
            InputsFit(e, ta, ts) ==>
              Allowed(run) && exists th :: Fair(fugues, lv, v, th, dark, arg, st) && GoesRight(fugues, lv, v, th, dark, run)
  {
    hide CheckVersus, Closes, Unanimous, Careful, FixFree, FixFreeProgram, M.Plain, M.PlainProgram, WellFormed, FitProgram;
    hide GoesRight, RunVerse, Fair, EnvOf, Allowed, InputsFit, Cleared, Literal, CellType, Acyclic;
    ParsedIsSober(toks, c, fugues, lv, v, dark);
    ClearedIsChecked(toks, c, fugues, lv, v, dark);
    DataFits(fugues, lv, v, dark, arg, st);
    ParsedVersesGoRight(toks, c, fugues, lv, v, dark, phys, arg, st, fuel);
  }

  lemma ClearedIsChecked(toks: G.Toks, c: G.Cursor, fugues: seq<Fugue>, lv: nat, v: Versus, dark: nat)
    requires Cleared(toks, c, fugues, lv, v, dark)
    ensures CheckVersus(fugues, lv, v).Ok?
  {
  }
}
