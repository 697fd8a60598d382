/** Verse bodies: statements lowered to a bind chain that ends in a cadence, and the sung form
    lowered to the plain form by stripping its lines' heads in place (parser.rs). */
module Score {
  import opened Core
  import opened Grammar
  import opened Printing

  // --- statements ---

  function Lines(toks: Toks, c: Cursor): (r: Cursor)
    requires c.pos <= |toks|
    ensures c.pos <= r.pos <= |toks| && r.parens == c.parens && r.depth == c.depth
  {
    c.(pos := PastNewlines(toks, c.pos))
  }

  /** The word under the cursor. */
  function HeadWord(toks: Toks, c: Cursor): Word {
    match TokAt(toks, c)
    case Some(Ident(s)) => WordOf(s)
    case _ => Name
  }

  function ExpectWord(toks: Toks, c: Cursor, w: Word, what: Gripe): (r: Parsed<()>)
    requires c.pos <= |toks| && !w.Name?
    ensures r.Ok? ==> c.pos < r.at.pos <= |toks| && r.at.parens == c.parens && r.at.depth == c.depth
  {
    var p := Peek(toks, c);
    if HeadWord(toks, p) == w then Ok((), Past(p)) else Fail(toks, p, what)
  }

  function Close(toks: Toks, c: Cursor): (r: Parsed<()>)
    requires c.pos <= |toks|
    ensures r.Ok? ==> c.pos < r.at.pos <= |toks| && r.at.parens == c.parens && r.at.depth == c.depth
  {
    Expect(toks, Lines(toks, c), RBrace, WantBrace)
  }

  /** What each cadence that takes a value builds. */
  function Cadential(w: Word, mode: Mode, e: Expr): Expr {
    match w
    case Amen => Return(mode, e)
    case ClamaW => Clama(e)
    case _ => Perage(e)
  }

  function ParseStmts(toks: Toks, c: Cursor, mode: Mode): (r: Parsed<Expr>)
    requires c.pos <= |toks|
    ensures Moves(toks, c, r)
    decreases |toks| - c.pos, 1
  {
    var p := Peek(toks, Lines(toks, c));
    match HeadWord(toks, p)
    case Amen | ClamaW | PerageW => ParseCadence(toks, Past(p), mode, HeadWord(toks, p))
    case NihilW =>
      (match Close(toks, Past(p))
       case Ok(_, c1) => Ok(Nihil, c1)
       case Err(l, w) => Err(l, w))
    case Si => ParseBranches(toks, Past(p), mode)
    case PoneW | MitteW => ParseEffect(toks, Past(p), mode, HeadWord(toks, p))
    case _ => ParseBind(toks, p, mode)
  }

  function ParseCadence(toks: Toks, c: Cursor, mode: Mode, cadence: Word): (r: Parsed<Expr>)
    requires c.pos <= |toks|
    ensures Moves(toks, c, r)
  {
    match ParseExpr(toks, c)
    case Err(l, w) => Err(l, w)
    case Ok(e, c1) =>
      match Close(toks, c1)
      case Ok(_, c2) => Ok(Cadential(cadence, mode, e), c2)
      case Err(l, w) => Err(l, w)
  }

  /** `pone` or `mitte`, and what follows it. */
  function ParseEffect(toks: Toks, c: Cursor, mode: Mode, effect: Word): (r: Parsed<Expr>)
    requires c.pos <= |toks|
    ensures Moves(toks, c, r)
    decreases |toks| - c.pos, 0
  {
    match ParseExpr(toks, c)
    case Err(l, w) => Err(l, w)
    case Ok(e, c1) =>
      match ParseStmts(toks, c1, mode)
      case Ok(k, c2) => Ok(Bind(mode, if effect.PoneW? then Pone(e) else Mitte(e), "_", k), c2)
      case Err(l, w) => Err(l, w)
  }

  function ParseBind(toks: Toks, c: Cursor, mode: Mode): (r: Parsed<Expr>)
    requires c.pos <= |toks|
    ensures Moves(toks, c, r)
    decreases |toks| - c.pos, 0
  {
    match Identifier(toks, c, WantStatement)
    case Err(l, w) => Err(l, w)
    case Ok(x, c1) =>
      match Expect(toks, c1, BindArrow, WantBindArrow)
      case Err(l, w) => Err(l, w)
      case Ok(_, c2) =>
        match ParseExpr(toks, c2)
        case Err(l, w) => Err(l, w)
        case Ok(m, c3) =>
          match ParseStmts(toks, c3, mode)
          case Ok(k, c4) => Ok(Bind(mode, m, x, k), c4)
          case Err(l, w) => Err(l, w)
  }

  /** `si … tunc { … } aliter { … }` ends its statement list. */
  function ParseBranches(toks: Toks, c: Cursor, mode: Mode): (r: Parsed<Expr>)
    requires c.pos <= |toks|
    ensures Moves(toks, c, r)
    decreases |toks| - c.pos, 2
  {
    match ParseExpr(toks, c)
    case Err(l, w) => Err(l, w)
    case Ok(b, c1) =>
      match ExpectWord(toks, c1, Tunc, WantTunc)
      case Err(l, w) => Err(l, w)
      case Ok(_, c2) =>
        match Expect(toks, Lines(toks, c2), LBrace, WantThen)
        case Err(l, w) => Err(l, w)
        case Ok(_, c3) =>
          match ParseStmts(toks, c3, mode)
          case Err(l, w) => Err(l, w)
          case Ok(t, c4) => ParseElse(toks, c4, mode, b, t)
  }

  function ParseElse(toks: Toks, c: Cursor, mode: Mode, b: Expr, t: Expr): (r: Parsed<Expr>)
    requires c.pos <= |toks|
    ensures Moves(toks, c, r)
    decreases |toks| - c.pos, 2
  {
    match ExpectWord(toks, Lines(toks, c), Aliter, WantAliter)
    case Err(l, w) => Err(l, w)
    case Ok(_, c1) =>
      match Expect(toks, Lines(toks, c1), LBrace, WantElse)
      case Err(l, w) => Err(l, w)
      case Ok(_, c2) =>
        match ParseStmts(toks, c2, mode)
        case Err(l, w) => Err(l, w)
        case Ok(f, c3) =>
          match Close(toks, c3)
          case Ok(_, c4) => Ok(If(b, t, f), c4)
          case Err(l, w) => Err(l, w)
  }

  // --- printing statements ---

  /** Names that begin a statement of their own. */
  predicate Heads(w: Word) {
    w.Amen? || w.NihilW? || w.ClamaW? || w.PerageW? || w.Si? || w.PoneW? || w.MitteW?
  }

  /** A bind chain with a surface form, nested within the guard. */
  predicate Writable(mode: Mode, depth: nat, b: Expr) {
    match b
    case Return(m, e) => m == mode && Fits(depth, e)
    case Nihil => true
    case Clama(e) => Fits(depth, e)
    case Perage(e) => Fits(depth, e)
    case If(c, t, f) => Fits(depth, c) && Writable(mode, depth, t) && Writable(mode, depth, f)
    case Bind(m, e, x, k) =>
      && m == mode && Writable(mode, depth, k)
      && (if IsEffect(b) then x == "_" && FitsTight(depth, e.m) else !Heads(WordOf(x)) && Fits(depth, e))
    case _ => false
  }

  predicate Fits(depth: nat, e: Expr) {
    Expressible(e) && depth + Nest(0, e) <= MAX_EXPR_DEPTH
  }

  predicate FitsTight(depth: nat, e: Expr) {
    Expressible(e) && depth + 1 + Nest(4, e) <= MAX_EXPR_DEPTH
  }

  /** A line with a verb of its own instead of a binder. */
  predicate IsEffect(b: Expr) {
    b.Bind? && (b.m.Mitte? || (b.m.Pone? && b.x == "_"))
  }

  function Verb(m: Expr): string {
    if m.Mitte? then "mitte" else "pone"
  }

  function PrintStmts(b: Expr): seq<Tok> {
    match b
    case Return(_, e) => [Ident("amen")] + Print(0, e) + [Newline, RBrace]
    case Nihil => [Ident("nihil"), Newline, RBrace]
    case Clama(e) => [Ident("clama")] + Print(0, e) + [Newline, RBrace]
    case Perage(e) => [Ident("perage")] + Print(0, e) + [Newline, RBrace]
    case If(c, t, f) =>
      [Ident("si")] + Print(0, c) + [Ident("tunc"), LBrace, Newline] + PrintStmts(t)
      + [Ident("aliter"), LBrace, Newline] + PrintStmts(f) + [Newline, RBrace]
    case Bind(_, e, x, k) =>
      (if IsEffect(b) then [Ident(Verb(e))] + Print(4, e.m) else [Ident(x), BindArrow] + Print(0, e))
      + [Newline] + PrintStmts(k)
    case _ => []
  }

  // --- parsing undoes printing ---

  /** At the level of statements no parenthesis is open: a look moves nothing. */
  lemma Sees(toks: Toks, c: Cursor, t: Tok)
    requires c.parens == 0 && Reads(toks, c.pos, [t])
    ensures TokAt(toks, c) == Some(t) && Peek(toks, c) == c && (t != Newline ==> Lines(toks, c) == c)
    ensures t == Newline && c.pos + 1 < |toks| && toks[c.pos + 1].t != Newline ==> Lines(toks, c) == Past(c)
  {
    assert toks[c.pos + 0].t == [t][0];
    if t == Newline && c.pos + 1 < |toks| && toks[c.pos + 1].t != Newline {
      assert PastNewlines(toks, c.pos + 1) == c.pos + 1;
    }
  }

  lemma Keywords()
    ensures WordOf("amen") == Amen && WordOf("nihil") == NihilW && WordOf("clama") == ClamaW && WordOf("perage") == PerageW
    ensures WordOf("si") == Si && WordOf("tunc") == Tunc && WordOf("aliter") == Aliter && WordOf("pone") == PoneW && WordOf("mitte") == MitteW
  {
  }

  lemma StmtsBegin(mode: Mode, depth: nat, b: Expr)
    requires Writable(mode, depth, b)
    ensures |PrintStmts(b)| > 0 && PrintStmts(b)[0].Ident?
  {
    hide Print, Fits;
  }

  /** How wide an expression may stand where it ends a line: as a verb's operand, or open. */
  function Width(tight: bool): nat {
    if tight then 4 else 0
  }

  predicate FitsAt(tight: bool, depth: nat, e: Expr) {
    if tight then FitsTight(depth, e) else Fits(depth, e)
  }

  /** An expression up to the token that ends it. */
  lemma ExprUpTo(toks: Toks, c: Cursor, tight: bool, e: Expr, t: Tok, rest: seq<Tok>)
    requires c.parens == 0 && FitsAt(tight, c.depth, e) && Reads(toks, c.pos, Print(Width(tight), e) + [t] + rest)
    requires t == Newline || t == Ident("tunc")
    ensures ParseExpr(toks, c) == Ok(e, After(c, Print(Width(tight), e)))
    ensures Reads(toks, c.pos + |Print(Width(tight), e)|, [t] + rest)
  {
    hide Print, Nest, Expressible, ParseExpr, WordOf;
    Keywords();
    var ts := Print(Width(tight), e);
    assert ts + [t] + rest == ts + ([t] + rest);
    ReadsParts(toks, c.pos, ts, [t] + rest);
    ReadsParts(toks, c.pos + |ts|, [t], rest);
    Sees(toks, After(c, ts), t);
    if tight { TightParses(toks, c, e); } else { PrintedParses(toks, c, e); }
  }

  lemma Closed(toks: Toks, c: Cursor)
    requires c.parens == 0 && Reads(toks, c.pos, [Newline, RBrace])
    ensures Close(toks, c) == Ok((), After(c, [Newline, RBrace]))
  {
    assert [Newline, RBrace] == [Newline] + [RBrace];
    ReadsParts(toks, c.pos, [Newline], [RBrace]);
    Sees(toks, Past(c), RBrace);
    Sees(toks, c, Newline);
  }

  /** Statements may begin on the next line. */
  lemma NextLine(toks: Toks, c: Cursor, mode: Mode, ts: seq<Tok>)
    requires c.parens == 0 && Reads(toks, c.pos, [Newline] + ts) && |ts| > 0 && ts[0] != Newline
    ensures ParseStmts(toks, c, mode) == ParseStmts(toks, Past(c), mode) && Reads(toks, c.pos + 1, ts)
    ensures Lines(toks, c) == Past(c)
  {
    ReadsParts(toks, c.pos, [Newline], ts);
    assert ts == [ts[0]] + ts[1..];
    ReadsParts(toks, c.pos + 1, [ts[0]], ts[1..]);
    Sees(toks, Past(c), ts[0]);
    Sees(toks, c, Newline);
  }

  lemma WordFirst(toks: Toks, c: Cursor, x: string, rest: seq<Tok>)
    requires c.parens == 0 && Reads(toks, c.pos, [Ident(x)] + rest)
    ensures Peek(toks, Lines(toks, c)) == c && HeadWord(toks, c) == WordOf(x) && Reads(toks, c.pos + 1, rest)
    ensures Identifier(toks, c, WantStatement) == Ok(x, Past(c))
  {
    ReadsParts(toks, c.pos, [Ident(x)], rest);
    Sees(toks, c, Ident(x));
  }

  /** Parsing a printed body gives it back and consumes its tokens, closing brace included. */
  lemma {:induction false} StmtsRoundTrip(toks: Toks, c: Cursor, mode: Mode, b: Expr)
    requires c.parens == 0 && Writable(mode, c.depth, b) && Reads(toks, c.pos, PrintStmts(b))
    ensures ParseStmts(toks, c, mode) == Ok(b, After(c, PrintStmts(b)))
    decreases b, 2
  {
    hide Print, ParseExpr, WordOf, Close, ParseStmts, Fits;
    Keywords();
    match b
    case Return(_, e) => CadenceTrip(toks, c, mode, b, "amen", e);
    case Clama(e) => CadenceTrip(toks, c, mode, b, "clama", e);
    case Perage(e) => CadenceTrip(toks, c, mode, b, "perage", e);
    case Nihil => NihilTrip(toks, c, mode);
    case If(_, _, _) => IfTrip(toks, c, mode, b);
    case Bind(_, _, _, _) => if IsEffect(b) { EffectTrip(toks, c, mode, b); } else { BindTrip(toks, c, mode, b); }
  }

  lemma NihilTrip(toks: Toks, c: Cursor, mode: Mode)
    requires c.parens == 0 && Reads(toks, c.pos, PrintStmts(Nihil))
    ensures ParseStmts(toks, c, mode) == Ok(Nihil, After(c, PrintStmts(Nihil)))
  {
    hide WordOf, Close;
    Keywords();
    assert PrintStmts(Nihil) == [Ident("nihil")] + [Newline, RBrace];
    WordFirst(toks, c, "nihil", [Newline, RBrace]);
    Closed(toks, Past(c));
  }

  lemma CadenceTrip(toks: Toks, c: Cursor, mode: Mode, b: Expr, head: string, e: Expr)
    requires c.parens == 0 && Fits(c.depth, e) && (head == "amen" || head == "clama" || head == "perage")
    requires PrintStmts(b) == [Ident(head)] + Print(0, e) + [Newline, RBrace] && b == Cadential(WordOf(head), mode, e)
    requires Reads(toks, c.pos, PrintStmts(b))
    ensures ParseStmts(toks, c, mode) == Ok(b, After(c, PrintStmts(b)))
  {
    hide Print, ParseExpr, WordOf, Close, Fits, PrintStmts, Cadential;
    Keywords();
    var tail := Print(0, e) + [Newline] + [RBrace];
    assert PrintStmts(b) == [Ident(head)] + tail;
    WordFirst(toks, c, head, tail);
    ExprUpTo(toks, Past(c), false, e, Newline, [RBrace]);
    assert [Newline] + [RBrace] == [Newline, RBrace];
    var c1 := After(Past(c), Print(0, e));
    Closed(toks, c1);
    assert After(c1, [Newline, RBrace]) == After(c, PrintStmts(b));
  }

  lemma {:induction false} BindTrip(toks: Toks, c: Cursor, mode: Mode, b: Expr)
    requires b.Bind? && !IsEffect(b) && c.parens == 0 && Writable(mode, c.depth, b) && Reads(toks, c.pos, PrintStmts(b))
    ensures ParseStmts(toks, c, mode) == Ok(b, After(c, PrintStmts(b)))
    decreases b, 0
  {
    hide Print, ParseExpr, WordOf, Fits, ParseStmts, PrintStmts, Reads;
    BindTokens(b);
    StmtsBegin(mode, c.depth, b.k);
    var next := PrintStmts(b.k);
    var tail := Print(0, b.m) + [Newline] + next;
    WordFirst(toks, c, b.x, [BindArrow] + tail);
    ReadsParts(toks, c.pos + 1, [BindArrow], tail);
    Sees(toks, Past(c), BindArrow);
    Follows(toks, Past(Past(c)), mode, false, b.m, b.k);
    var c1 := After(Past(Past(c)), Print(0, b.m));
    StmtsRoundTrip(toks, Past(c1), mode, b.k);
    BindParses(toks, c, mode, b.x, b.m, c1, b.k, After(Past(c1), next));
  }

  lemma {:induction false} EffectTrip(toks: Toks, c: Cursor, mode: Mode, b: Expr)
    requires IsEffect(b) && c.parens == 0 && Writable(mode, c.depth, b) && Reads(toks, c.pos, PrintStmts(b))
    ensures ParseStmts(toks, c, mode) == Ok(b, After(c, PrintStmts(b)))
    decreases b, 0
  {
    hide Print, ParseExpr, WordOf, FitsTight, ParseStmts, PrintStmts, Reads;
    BindTokens(b);
    StmtsBegin(mode, c.depth, b.k);
    Keywords();
    var next := PrintStmts(b.k);
    var tail := Print(4, b.m.m) + [Newline] + next;
    WordFirst(toks, c, Verb(b.m), tail);
    Follows(toks, Past(c), mode, true, b.m.m, b.k);
    var c1 := After(Past(c), Print(4, b.m.m));
    StmtsRoundTrip(toks, Past(c1), mode, b.k);
    EffectParses(toks, c, mode, WordOf(Verb(b.m)), b.m.m, c1, b.k, After(Past(c1), next));
  }

  lemma BindTokens(b: Expr)
    requires b.Bind?
    ensures IsEffect(b) ==> PrintStmts(b) == [Ident(Verb(b.m))] + (Print(4, b.m.m) + [Newline] + PrintStmts(b.k))
    ensures !IsEffect(b) ==> PrintStmts(b) == [Ident(b.x)] + ([BindArrow] + (Print(0, b.m) + [Newline] + PrintStmts(b.k)))
  {
    hide Print;
  }

  lemma EffectParses(toks: Toks, c: Cursor, mode: Mode, w: Word, e: Expr, c1: Cursor, k: Expr, end: Cursor)
    requires c.pos < |toks| && c1.pos <= |toks| && Peek(toks, Lines(toks, c)) == c && HeadWord(toks, c) == w && (w.PoneW? || w.MitteW?)
    requires ParseExpr(toks, Past(c)) == Ok(e, c1) && ParseStmts(toks, c1, mode) == Ok(k, end)
    ensures ParseStmts(toks, c, mode) == Ok(Bind(mode, if w.PoneW? then Pone(e) else Mitte(e), "_", k), end)
  {
    hide ParseExpr, HeadWord;
    assert ParseStmts(toks, c, mode) == ParseEffect(toks, Past(c), mode, w);
  }

  lemma BindParses(toks: Toks, c: Cursor, mode: Mode, x: string, m: Expr, c1: Cursor, k: Expr, end: Cursor)
    requires c.pos < |toks| && c1.pos <= |toks| && Peek(toks, Lines(toks, c)) == c && !Heads(HeadWord(toks, c))
    requires Identifier(toks, c, WantStatement) == Ok(x, Past(c)) && c.pos + 2 <= |toks|
    requires TokAt(toks, Past(c)) == Some(BindArrow) && c.parens == 0
    requires ParseExpr(toks, Past(Past(c))) == Ok(m, c1) && ParseStmts(toks, c1, mode) == Ok(k, end)
    ensures ParseStmts(toks, c, mode) == Ok(Bind(mode, m, x, k), end)
  {
    hide ParseExpr, HeadWord, Identifier;
    assert ParseStmts(toks, c, mode) == ParseBind(toks, c, mode);
  }

  /** An expression, a newline, and the statements after it. */
  lemma Follows(toks: Toks, c: Cursor, mode: Mode, tight: bool, e: Expr, k: Expr)
    requires c.parens == 0 && FitsAt(tight, c.depth, e) && Reads(toks, c.pos, Print(Width(tight), e) + [Newline] + PrintStmts(k))
    requires |PrintStmts(k)| > 0 && PrintStmts(k)[0] != Newline
    ensures ParseExpr(toks, c) == Ok(e, After(c, Print(Width(tight), e)))
    ensures var c1 := After(c, Print(Width(tight), e));
            c1.pos + 1 <= |toks| && ParseStmts(toks, c1, mode) == ParseStmts(toks, Past(c1), mode) && Reads(toks, c1.pos + 1, PrintStmts(k))
  {
    hide Print, ParseExpr, FitsAt, PrintStmts, ParseStmts;
    ExprUpTo(toks, c, tight, e, Newline, PrintStmts(k));
    NextLine(toks, After(c, Print(Width(tight), e)), mode, PrintStmts(k));
  }

  function Elses(f: seq<Tok>): seq<Tok> {
    [Ident("aliter"), LBrace, Newline] + f + [Newline, RBrace]
  }

  function Thens(t: seq<Tok>, f: seq<Tok>): seq<Tok> {
    [LBrace] + ([Newline] + (t + Elses(f)))
  }

  lemma IfTokens(b: Expr)
    requires b.If?
    ensures PrintStmts(b) == [Ident("si")] + (Print(0, b.c) + [Ident("tunc")] + Thens(PrintStmts(b.t), PrintStmts(b.e)))
  {
    hide Print;
  }

  lemma {:induction false} IfTrip(toks: Toks, c: Cursor, mode: Mode, b: Expr)
    requires b.If? && c.parens == 0 && Writable(mode, c.depth, b) && Reads(toks, c.pos, PrintStmts(b))
    ensures ParseStmts(toks, c, mode) == Ok(b, After(c, PrintStmts(b)))
    decreases b, 1
  {
    hide Print, ParseExpr, WordOf, Close, Fits, ParseElse, ParseStmts, PrintStmts, Reads, Elses;
    Keywords();
    IfTokens(b);
    var t, elses := PrintStmts(b.t), Elses(PrintStmts(b.e));
    var thens := Thens(t, PrintStmts(b.e));
    WordFirst(toks, c, "si", Print(0, b.c) + [Ident("tunc")] + thens);
    ExprUpTo(toks, Past(c), false, b.c, Ident("tunc"), thens);
    var c1 := After(Past(c), Print(0, b.c));
    WordFirst(toks, c1, "tunc", thens);
    StmtsBegin(mode, c.depth, b.t);
    BlockOpens(toks, Past(c1), mode, t, elses);
    var c3 := Past(Past(Past(c1)));
    StmtsRoundTrip(toks, c3, mode, b.t);
    ElseTrip(toks, After(c3, t), mode, b);
    IfParses(toks, c, mode, b.c, c1, b.t, After(c3, t));
  }

  lemma IfParses(toks: Toks, c: Cursor, mode: Mode, b: Expr, c1: Cursor, t: Expr, c4: Cursor)
    requires c.pos < |toks| && c1.pos + 1 < |toks| && Peek(toks, Lines(toks, c)) == c && HeadWord(toks, c) == Si
    requires ParseExpr(toks, Past(c)) == Ok(b, c1) && ExpectWord(toks, c1, Tunc, WantTunc) == Ok((), Past(c1))
    requires Expect(toks, Lines(toks, Past(c1)), LBrace, WantThen) == Ok((), Past(Past(c1)))
    requires ParseStmts(toks, Past(Past(c1)), mode) == Ok(t, c4) && c4.pos <= |toks|
    ensures ParseStmts(toks, c, mode) == ParseElse(toks, c4, mode, b, t)
  {
    hide ParseExpr, HeadWord, Expect, ExpectWord, ParseElse;
    assert ParseStmts(toks, c, mode) == ParseBranches(toks, Past(c), mode);
  }

  /** An opening brace, a newline, and the statements of the block. */
  lemma BlockOpens(toks: Toks, c: Cursor, mode: Mode, ts: seq<Tok>, rest: seq<Tok>)
    requires c.parens == 0 && Reads(toks, c.pos, [LBrace] + ([Newline] + (ts + rest))) && |ts| > 0 && ts[0] != Newline
    ensures forall w :: Expect(toks, Lines(toks, c), LBrace, w) == Ok((), Past(c))
    ensures c.pos + 2 <= |toks| && ParseStmts(toks, Past(c), mode) == ParseStmts(toks, Past(Past(c)), mode)
    ensures Reads(toks, c.pos + 2, ts) && Reads(toks, c.pos + 2 + |ts|, rest)
  {
    hide ParseStmts;
    ReadsParts(toks, c.pos, [LBrace], [Newline] + (ts + rest));
    Sees(toks, c, LBrace);
    assert (ts + rest)[0] == ts[0];
    NextLine(toks, Past(c), mode, ts + rest);
    ReadsParts(toks, c.pos + 2, ts, rest);
  }

  lemma {:induction false} ElseTrip(toks: Toks, c: Cursor, mode: Mode, b: Expr)
    requires b.If? && c.parens == 0 && Writable(mode, c.depth, b)
    requires Reads(toks, c.pos, Elses(PrintStmts(b.e)))
    ensures ParseElse(toks, c, mode, b.c, b.t) == Ok(b, After(c, Elses(PrintStmts(b.e))))
    decreases b, 0
  {
    hide Print, ParseExpr, WordOf, Close, Fits, ParseStmts;
    Keywords();
    var f := PrintStmts(b.e);
    var block := [LBrace] + ([Newline] + (f + [Newline, RBrace]));
    assert [Ident("aliter"), LBrace, Newline] + f + [Newline, RBrace] == [Ident("aliter")] + block;
    WordFirst(toks, c, "aliter", block);
    StmtsBegin(mode, c.depth, b.e);
    BlockOpens(toks, Past(c), mode, f, [Newline, RBrace]);
    var c2 := Past(Past(Past(c)));
    StmtsRoundTrip(toks, c2, mode, b.e);
    Closed(toks, After(c2, f));
  }

  // --- nothing without a surface form parses ---

  /** A bind chain with a surface form, however deep its expressions nest. */
  predicate Shaped(mode: Mode, b: Expr) {
    match b
    case Return(m, e) => m == mode && Expressible(e)
    case Nihil => true
    case Clama(e) => Expressible(e)
    case Perage(e) => Expressible(e)
    case If(c, t, f) => Expressible(c) && Shaped(mode, t) && Shaped(mode, f)
    case Bind(m, e, x, k) =>
      && m == mode && Shaped(mode, k)
      && (if IsEffect(b) then x == "_" && Expressible(e.m) else !Heads(WordOf(x)) && Expressible(e))
    case _ => false
  }

  /** What the guard adds: the nesting of a shaped body's expressions. */
  predicate Within(depth: nat, b: Expr) {
    match b
    case Return(_, e) => depth + Nest(0, e) <= MAX_EXPR_DEPTH
    case Clama(e) => depth + Nest(0, e) <= MAX_EXPR_DEPTH
    case Perage(e) => depth + Nest(0, e) <= MAX_EXPR_DEPTH
    case If(c, t, f) => depth + Nest(0, c) <= MAX_EXPR_DEPTH && Within(depth, t) && Within(depth, f)
    case Bind(_, e, _, k) =>
      (if IsEffect(b) then depth + 1 + Nest(4, e.m) <= MAX_EXPR_DEPTH else depth + Nest(0, e) <= MAX_EXPR_DEPTH) && Within(depth, k)
    case _ => true
  }

  /** The bodies the printer writes are the shaped ones within the guard. */
  lemma {:induction false} WritableIsShaped(mode: Mode, depth: nat, b: Expr)
    ensures Writable(mode, depth, b) <==> Shaped(mode, b) && Within(depth, b)
  {
    hide Expressible, Nest, WordOf;
    if b.Bind? { WritableIsShaped(mode, depth, b.k); }
    if b.If? {
      WritableIsShaped(mode, depth, b.t);
      WritableIsShaped(mode, depth, b.e);
    }
  }

  /** Whatever the statement parser returns has a surface form. */
  lemma {:induction false} ParsedIsShaped(toks: Toks, c: Cursor, mode: Mode)
    requires c.pos <= |toks|
    ensures ParseStmts(toks, c, mode).Ok? ==> Shaped(mode, ParseStmts(toks, c, mode).val)
    decreases |toks| - c.pos, 1
  {
    hide ParseExpr, Expressible, WordOf, ParseBranches, ParseBind, ParseEffect, Shaped;
    var p := Peek(toks, Lines(toks, c));
    var w := HeadWord(toks, p);
    if w.Amen? || w.ClamaW? || w.PerageW? {
      CadenceShaped(toks, Past(p), mode, w);
    } else if w.NihilW? {
      NihilShaped(mode);
    } else if w.Si? {
      BranchesShaped(toks, Past(p), mode);
    } else if w.PoneW? || w.MitteW? {
      EffectShaped(toks, Past(p), mode, w);
    } else {
      PeekedTwice(toks, Lines(toks, c));
      BindShaped(toks, p, mode);
    }
  }

  lemma PeekedTwice(toks: Toks, c: Cursor)
    requires c.pos <= |toks|
    ensures Peek(toks, Peek(toks, c)) == Peek(toks, c)
  {
    PastTwice(toks, c.pos);
  }

  lemma {:induction false} PastTwice(toks: Toks, i: nat)
    requires i <= |toks|
    ensures PastNewlines(toks, PastNewlines(toks, i)) == PastNewlines(toks, i)
    decreases |toks| - i
  {
    if i < |toks| && toks[i].t.Newline? { PastTwice(toks, i + 1); }
  }

  lemma NihilShaped(mode: Mode)
    ensures Shaped(mode, Nihil)
  {
  }

  lemma CadenceShaped(toks: Toks, c: Cursor, mode: Mode, w: Word)
    requires c.pos <= |toks| && (w.Amen? || w.ClamaW? || w.PerageW?)
    ensures var r := ParseCadence(toks, c, mode, w); r.Ok? ==> Shaped(mode, r.val)
  {
    hide ParseExpr, Expressible, WordOf;
    ParsedIsExpressible(toks, c);
  }

  lemma {:induction false} EffectShaped(toks: Toks, c: Cursor, mode: Mode, w: Word)
    requires c.pos <= |toks| && (w.PoneW? || w.MitteW?)
    ensures var r := ParseEffect(toks, c, mode, w); r.Ok? ==> Shaped(mode, r.val)
    decreases |toks| - c.pos, 0
  {
    hide ParseExpr, Expressible, WordOf, ParseStmts;
    ParsedIsExpressible(toks, c);
    if ParseExpr(toks, c).Ok? { ParsedIsShaped(toks, ParseExpr(toks, c).at, mode); }
  }

  lemma {:induction false} BindShaped(toks: Toks, c: Cursor, mode: Mode)
    requires c.pos <= |toks| && !Heads(HeadWord(toks, c)) && Peek(toks, c) == c
    ensures var r := ParseBind(toks, c, mode); r.Ok? ==> Shaped(mode, r.val)
    decreases |toks| - c.pos, 0
  {
    hide ParseExpr, WordOf, ParseStmts;
    var i := Identifier(toks, c, WantStatement);
    if i.Ok? {
      assert WordOf(i.val) == HeadWord(toks, c);
      var a := Expect(toks, i.at, BindArrow, WantBindArrow);
      if a.Ok? {
        ParsedIsExpressible(toks, a.at);
        if ParseExpr(toks, a.at).Ok? { ParsedIsShaped(toks, ParseExpr(toks, a.at).at, mode); }
      }
    }
  }

  lemma {:induction false} BranchesShaped(toks: Toks, c: Cursor, mode: Mode)
    requires c.pos <= |toks|
    ensures var r := ParseBranches(toks, c, mode); r.Ok? ==> Shaped(mode, r.val)
    decreases |toks| - c.pos, 2
  {
    hide ParseExpr, Expressible, WordOf, ParseStmts, ParseElse, Expect, ExpectWord;
    ParsedIsExpressible(toks, c);
    var r := ParseBranches(toks, c, mode);
    if r.Ok? {
      var b := ParseExpr(toks, c);
      var tunc := ExpectWord(toks, b.at, Tunc, WantTunc);
      var open := Expect(toks, Lines(toks, tunc.at), LBrace, WantThen);
      ParsedIsShaped(toks, open.at, mode);
      var t := ParseStmts(toks, open.at, mode);
      ElseShaped(toks, t.at, mode, b.val, t.val);
    }
  }

  lemma {:induction false} ElseShaped(toks: Toks, c: Cursor, mode: Mode, b: Expr, t: Expr)
    requires c.pos <= |toks| && Expressible(b) && Shaped(mode, t)
    ensures var r := ParseElse(toks, c, mode, b, t); r.Ok? ==> Shaped(mode, r.val)
    decreases |toks| - c.pos, 2
  {
    hide Expressible, WordOf, ParseStmts, Expect, ExpectWord, Close;
    var r := ParseElse(toks, c, mode, b, t);
    if r.Ok? {
      var aliter := ExpectWord(toks, Lines(toks, c), Aliter, WantAliter);
      var open := Expect(toks, Lines(toks, aliter.at), LBrace, WantElse);
      ParsedIsShaped(toks, open.at, mode);
    }
  }
}
