/** What the signs of the surface compute (parser.rs, builtins.rs). */
module Signs {
  import opened Core
  import opened Grammar
  import opened Machine
  import opened Meaning
  import B = Builtins
  import O = Overtrust

  /** The arithmetic of a sign. */
  function Operation(ph: Physics, t: Tok): (Scalar, Scalar) -> Scalar
    requires t.Plus? || t.Minus? || t.Star? || t.Slash?
  {
    match t
    case Plus => ph.add
    case Minus => ph.sub
    case Star => ph.mul
    case Slash => ph.div
  }

  function NameOfSign(t: Tok): Option<Sym> {
    if SumName(Some(t)).Some? then SumName(Some(t)) else ProductName(Some(t))
  }

  lemma SignIsBuiltin(ph: Physics, t: Tok, x: Scalar, y: Scalar)
    requires t.Plus? || t.Minus? || t.Star? || t.Slash?
    ensures NameOfSign(t).Some? && B.PrimOf(NameOfSign(t).value).Some?
    ensures var p := B.PrimOf(NameOfSign(t).value).value;
            B.ArityOf(p) == 2 && B.Call(ph, p, [Value.Num(x), Value.Num(y)]) == B.Done(Value.Num(Operation(ph, t)(x, y)))
  {
    hide B.IsSafe, B.ValueEq, B.CallCmd, B.CallCorpus, B.CallField, B.CallDeflect, B.RecordGet;
  }

  /** Where no binder takes its name, a sign between two expressions combines the numbers they have, the
      left one first. */
  lemma SignsCompute(ctx: Ctx, t: Tok, a: Expr, b: Expr, s: Scope, L: seq<Layer>, fuel: nat, x: Scalar, m: nat,
          y: Scalar, n: nat)
    requires t.Plus? || t.Minus? || t.Star? || t.Slash?
    requires NameOfSign(t).Some? && s.Lookup(NameOfSign(t).value) == None
    requires fuel >= 4 && Denote(ctx, a, s, L, fuel - 4) == Yield(Value.Num(x), L, m) && m >= 2
    requires Denote(ctx, b, s, L, m - 2) == Yield(Value.Num(y), L, n) && n > 0
    ensures Denote(ctx, Call2(NameOfSign(t).value, a, b), s, L, fuel)
         == Yield(Value.Num(Operation(ctx.env.phys, t)(x, y)), L, n - 1)
  {
    hide Denote, B.PrimOf, B.Call, Kinds, NameOfSign, Operation;
    SignIsBuiltin(ctx.env.phys, t, x, y);
    var name, vx, vy := NameOfSign(t).value, Value.Num(x), Value.Num(y);
    O.VarMeans(ctx, name, Builtin(name, []), s, L, fuel - 2);
    O.AppMeans(ctx, Var(name), a, s, L, fuel - 1, Builtin(name, []), vx, m);
    assert [] + [vx] == [vx];
    assert DenoteApply(ctx, Builtin(name, []), vx, L, m - 1) == Yield(Builtin(name, [vx]), L, m - 1);
    O.AppMeans(ctx, App(Var(name), a), b, s, L, fuel, Builtin(name, [vx]), vy, n);
    assert [vx] + [vy] == [vx, vy];
  }

  /** A minus before an atom takes its number from zero. */
  lemma MinusNegates(toks: Toks, c: Cursor, ctx: Ctx, s: Scope, L: seq<Layer>, fuel: nat, x: Scalar, n: nat)
    requires c.pos <= |toks| && TokAt(toks, Peek(toks, c)) == Some(Minus)
    requires ParseAtom(toks, Past(Peek(toks, c))).Ok? && s.Lookup("sub") == None
    requires fuel >= 7
    requires Denote(ctx, ParseAtom(toks, Past(Peek(toks, c))).val, s, L, fuel - 7) == Yield(Value.Num(x), L, n) && n > 0
    ensures var r := ParseAtom(toks, c);
            && r.Ok? && r.at == ParseAtom(toks, Past(Peek(toks, c))).at
            && Denote(ctx, r.val, s, L, fuel) == Yield(Value.Num(ctx.env.phys.sub(ZERO, x)), L, n - 1)
  {
    hide Denote;
    var e := ParseAtom(toks, Past(Peek(toks, c))).val;
    assert ParseAtom(toks, c).val == Call2("sub", Lit(Value.Num(ZERO)), e);
    O.LitMeans(ctx, Value.Num(ZERO), s, L, fuel - 4);
    SignsCompute(ctx, Minus, Lit(Value.Num(ZERO)), e, s, L, fuel, ZERO, fuel - 5, x, n);
  }

  /** The words that end an application, and those an operand may begin with besides names. */
  const STOPS: seq<string> := ["tunc", "aliter", "amen", "nihil", "clama", "perage", "si", "pone", "mitte", "fuga", "versus",
    "in", "pedale", "subiectum", "reale", "tonale", "contra"]
  const FORMS: seq<string> := ["arg", "lege", "verum", "falsum", "ask", "resolve", "pure", "leva", "pone"]

  predicate Among(s: string, ws: seq<string>) {
    exists i :: 0 <= i < |ws| && ws[i] == s
  }

  lemma StopsStop(i: nat)
    requires i < |STOPS|
    ensures EndsApplication(WordOf(STOPS[i]))
  {
  }

  /** Which stop a word is. */
  function StopOf(w: Word): nat {
    match w
    case Tunc => 0
    case Aliter => 1
    case Amen => 2
    case NihilW => 3
    case ClamaW => 4
    case PerageW => 5
    case Si => 6
    case PoneW => 7
    case MitteW => 8
    case Fuga => 9
    case VersusW => 10
    case In => 11
    case Pedale => 12
    case Subiectum => 13
    case Reale => 14
    case Tonale => 15
    case Contra => 16
    case _ => |STOPS|
  }

  lemma StopSpelt(s: string)
    requires EndsApplication(WordOf(s))
    ensures StopOf(WordOf(s)) < |STOPS| && STOPS[StopOf(WordOf(s))] == s
  {
  }

  /** The keywords that end an application are exactly these. */
  lemma StopsExactly(s: string)
    ensures EndsApplication(WordOf(s)) <==> Among(s, STOPS)
  {
    hide WordOf, EndsApplication;
    if EndsApplication(WordOf(s)) { StopSpelt(s); }
    if i :| 0 <= i < |STOPS| && STOPS[i] == s { StopsStop(i); }
  }

  lemma FormSpelt(s: string)
    requires !Among(s, FORMS)
    ensures var w := WordOf(s);
            !w.ArgW? && !w.LegeW? && !w.Verum? && !w.Falsum? && !w.AskW? && !w.ResolveW? && !w.PureW? && !w.Leva? && !w.PoneW?
  {
    assert FORMS[0] == "arg" && FORMS[1] == "lege" && FORMS[2] == "verum" && FORMS[3] == "falsum" && FORMS[4] == "ask";
    assert FORMS[5] == "resolve" && FORMS[6] == "pure" && FORMS[7] == "leva" && FORMS[8] == "pone";
  }

  /** A word that opens no form of its own is a name. */
  lemma OthersAreNames(toks: Toks, s: string, c: Cursor)
    requires c.pos <= |toks| && !Among(s, FORMS)
    ensures ParseWord(toks, s, c) == Parsed.Ok(Var(s), c)
  {
    hide WordOf;
    FormSpelt(s);
  }

  /** Between operands a sign is read as its operation on what stands left and right of it. */
  lemma SignsRead(toks: Toks, lhs: Expr, c: Cursor)
    requires c.pos <= |toks|
    ensures var t := TokAt(toks, Peek(toks, c));
            && (t == Some(Plus) || t == Some(Minus) ==>
                  var r := ParseProduct(toks, Past(Peek(toks, c)));
                  r.Ok? ==> SumLoop(toks, lhs, c) == SumLoop(toks, Call2(NameOfSign(t.value).value, lhs, r.val), r.at))
            && (t == Some(Star) || t == Some(Slash) ==>
                  var r := ParseApplication(toks, Past(Peek(toks, c)));
                  r.Ok? ==> ProductLoop(toks, lhs, c) == ProductLoop(toks, Call2(NameOfSign(t.value).value, lhs, r.val), r.at))
  {
    hide ParseProduct, ParseApplication;
  }

  // --- newlines ---

  lemma PeeksPast(toks: Toks, c: Cursor)
    requires c.pos < |toks| && c.parens > 0 && toks[c.pos].t == Newline
    ensures Peek(toks, c) == Peek(toks, Past(c))
  {
  }

  /** Inside parentheses a newline is passed over wherever the parser looks: for an operand, */
  lemma AtomInside(toks: Toks, c: Cursor)
    requires c.pos < |toks| && c.parens > 0 && toks[c.pos].t == Newline
    ensures ParseAtom(toks, c) == ParseAtom(toks, Past(c))
  {
    hide ParseParens, ParseLambda, ParseWord, Peek;
    PeeksPast(toks, c);
  }

  /** for one more argument or a sign, */
  lemma LoopsInside(toks: Toks, c: Cursor, e: Expr)
    requires c.pos < |toks| && c.parens > 0 && toks[c.pos].t == Newline
    ensures AppLoop(toks, e, c) == AppLoop(toks, e, Past(c))
    ensures ProductLoop(toks, e, c) == ProductLoop(toks, e, Past(c)) && SumLoop(toks, e, c) == SumLoop(toks, e, Past(c))
  {
    hide ParseAtom, ParseProduct, ParseApplication, StartsAtom, Peek, SumName, ProductName;
    PeeksPast(toks, c);
  }

  /** or for what must come. */
  lemma TokensInside(toks: Toks, c: Cursor, want: Tok, what: Gripe)
    requires c.pos < |toks| && c.parens > 0 && toks[c.pos].t == Newline
    ensures Expect(toks, c, want, what) == Expect(toks, Past(c), want, what)
    ensures Identifier(toks, c, what) == Identifier(toks, Past(c), what) && NameArg(toks, c) == NameArg(toks, Past(c))
  {
    hide Peek;
    PeeksPast(toks, c);
  }

  /** What begins with an atom is the same wherever the atom is. */
  lemma SameAtom(toks: Toks, c: Cursor, d: Cursor)
    requires c.pos <= |toks| && d.pos <= |toks| && ParseAtom(toks, c) == ParseAtom(toks, d)
    ensures ParseSum(toks, c) == ParseSum(toks, d)
  {
    hide ParseAtom, AppLoop, ProductLoop, SumLoop;
    assert ParseApplication(toks, c) == ParseApplication(toks, d) by { hide ParseProduct, ParseSum; }
    hide ParseApplication;
    assert ParseProduct(toks, c) == ParseProduct(toks, d);
  }

  /** So is one before an expression. */
  lemma NewlineBefore(toks: Toks, c: Cursor)
    requires c.pos < |toks| && c.parens > 0 && toks[c.pos].t == Newline && c.depth < MAX_EXPR_DEPTH
    ensures ParseExpr(toks, c) == ParseExpr(toks, Past(c))
  {
    hide ParseSum, ParseAtom;
    var inner := c.(depth := c.depth + 1);
    AtomInside(toks, inner);
    SameAtom(toks, inner, Past(inner));
  }

  /** Outside it ends the expression before it, and none begins with it. */
  lemma NewlineEnds(toks: Toks, c: Cursor, e: Expr)
    requires c.pos < |toks| && c.parens == 0 && toks[c.pos].t == Newline
    ensures AppLoop(toks, e, c) == Parsed.Ok(e, c) && ProductLoop(toks, e, c) == Parsed.Ok(e, c) && SumLoop(toks, e, c) == Parsed.Ok(e, c)
    ensures ParseAtom(toks, c) == Parsed.Err(toks[c.pos].line, WantExpr)
  {
  }
}
