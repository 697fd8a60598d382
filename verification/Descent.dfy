/** The parser as the program has it: one object whose methods move a position over its tokens and
    count the open parentheses and the nesting (parser.rs). */
module Descent {
  import opened Core
  import opened Grammar
  import opened Score
  import opened Liturgy

  datatype Read<+T> = Got(val: T) | Bad(line: nat, what: Gripe)

  /** The method did what the grammar says: the value and the cursor, or the error. */
  predicate Meets<T(==)>(r: Read<T>, at: Cursor, spec: Parsed<T>) {
    match spec
    case Ok(v, c) => r == Got(v) && at == c
    case Err(l, w) => r == Bad(l, w)
  }

  /** Which rule a statement's first word chooses. */
  lemma Dispatched(toks: Toks, c: Cursor, mode: Mode)
    requires c.pos <= |toks|
    ensures var p, r := Peek(toks, Lines(toks, c)), ParseStmts(toks, c, mode);
            var w := HeadWord(toks, p);
            && (Heads(w) ==> p.pos < |toks|)
            && (!Heads(w) ==> r == ParseBind(toks, p, mode))
            && (w.Si? ==> r == ParseBranches(toks, Past(p), mode))
            && (w.PoneW? || w.MitteW? ==> r == ParseEffect(toks, Past(p), mode, w))
            && (w.Amen? || w.ClamaW? || w.PerageW? ==> r == ParseCadence(toks, Past(p), mode, w))
            && (w.NihilW? ==> match Close(toks, Past(p))
                              case Ok(_, c1) => r == Ok(Nihil, c1)
                              case Err(l, g) => r == Err(l, g))
  {
    hide ParseBind, ParseBranches, ParseEffect, ParseCadence, Close, WordOf;
  }

  class Parser {
    var toks: Toks
    var pos: nat
    var parens: nat
    var depth: nat

    constructor (lexed: Toks)
      ensures toks == lexed && At() == Cursor(0, 0, 0)
    {
      toks, pos, parens, depth := lexed, 0, 0, 0;
    }

    function At(): Cursor
      reads this
    {
      Cursor(pos, parens, depth)
    }

    predicate Within()
      reads this
    {
      pos <= |toks|
    }

    /** The line an error here is reported at. */
    function Line(): nat
      reads this
    {
      LineAt(toks, pos)
    }

    method Look() returns (t: Option<Tok>)
      requires Within()
      modifies this`pos
      ensures At() == Peek(toks, old(At())) && t == TokAt(toks, At())
    {
      while parens > 0 && pos < |toks| && toks[pos].t == Newline
        invariant pos <= |toks| && Peek(toks, At()) == Peek(toks, old(At()))
        decreases |toks| - pos
      {
        pos := pos + 1;
      }
      t := if pos < |toks| then Some(toks[pos].t) else None;
    }

    method SkipNewlines()
      requires Within()
      modifies this`pos
      ensures At() == Lines(toks, old(At()))
    {
      while pos < |toks| && toks[pos].t == Newline
        invariant pos <= |toks| && PastNewlines(toks, pos) == PastNewlines(toks, old(pos))
        decreases |toks| - pos
      {
        pos := pos + 1;
      }
    }

    method Next() returns (t: Option<Tok>)
      requires Within()
      modifies this`pos
      ensures var p := Peek(toks, old(At())); t == TokAt(toks, p) && At() == if t.Some? then Past(p) else p
    {
      t := Look();
      if t.Some? { pos := pos + 1; }
    }

    method ExpectTok(want: Tok, what: Gripe) returns (r: Read<()>)
      requires Within()
      modifies this`pos
      ensures Meets(r, At(), Expect(toks, old(At()), want, what))
    {
      var t := Look();
      if t == Some(want) {
        pos := pos + 1;
        r := Got(());
      } else {
        r := Bad(Line(), what);
      }
    }

    method Ident(what: Gripe) returns (r: Read<string>)
      requires Within()
      modifies this`pos
      ensures Meets(r, At(), Identifier(toks, old(At()), what))
    {
      var t := Next();
      match t
      case Some(Ident(s)) => r := Got(s);
      case _ => r := Bad(Line(), what);
    }

    method Named() returns (r: Read<string>)
      requires Within()
      modifies this`pos
      ensures Meets(r, At(), NameArg(toks, old(At())))
    {
      var t := Next();
      match t
      case Some(Ident(s)) => r := Got(s);
      case Some(Str(s)) => r := Got(s);
      case _ => r := Bad(Line(), WantName);
    }

    // --- expressions ---

    method Expression() returns (r: Read<Expr>)
      requires Within()
      modifies this`pos, this`parens, this`depth
      ensures Meets(r, At(), ParseExpr(toks, old(At())))
      decreases |toks| - pos, 6
    {
      depth := depth + 1;
      if depth > MAX_EXPR_DEPTH {
        r := Bad(Line(), TooDeep);
      } else {
        r := Additive();
        if r.Bad? { return; }
      }
      depth := depth - 1;
    }

    method Additive() returns (r: Read<Expr>)
      requires Within()
      modifies this`pos, this`parens, this`depth
      ensures Meets(r, At(), ParseSum(toks, old(At())))
      ensures r.Got? ==> depth == old(depth)
      decreases |toks| - pos, 5
    {
      hide ParseProduct;
      r := Multiplicative();
      if r.Bad? { return; }
      var lhs := r.val;
      while true
        invariant old(pos) < pos <= |toks| && depth == old(depth) && parens == old(parens)
        invariant ParseSum(toks, old(At())) == SumLoop(toks, lhs, At())
        decreases |toks| - pos
      {
        var t := Look();
        var op := SumName(t);
        if op.None? { return Got(lhs); }
        pos := pos + 1;
        r := Multiplicative();
        if r.Bad? { return; }
        lhs := Call2(op.value, lhs, r.val);
      }
    }

    method Multiplicative() returns (r: Read<Expr>)
      requires Within()
      modifies this`pos, this`parens, this`depth
      ensures Meets(r, At(), ParseProduct(toks, old(At())))
      decreases |toks| - pos, 4
    {
      hide ParseApplication;
      r := Application();
      if r.Bad? { return; }
      var lhs := r.val;
      while true
        invariant old(pos) < pos <= |toks| && depth == old(depth) && parens == old(parens)
        invariant ParseProduct(toks, old(At())) == ProductLoop(toks, lhs, At())
        decreases |toks| - pos
      {
        var t := Look();
        var op := ProductName(t);
        if op.None? { return Got(lhs); }
        pos := pos + 1;
        r := Application();
        if r.Bad? { return; }
        lhs := Call2(op.value, lhs, r.val);
      }
    }

    method Application() returns (r: Read<Expr>)
      requires Within()
      modifies this`pos, this`parens, this`depth
      ensures Meets(r, At(), ParseApplication(toks, old(At())))
      decreases |toks| - pos, 3
    {
      hide ParseAtom, StartsAtom;
      r := Atom();
      if r.Bad? { return; }
      var e := r.val;
      while true
        invariant old(pos) < pos <= |toks| && depth == old(depth) && parens == old(parens)
        invariant ParseApplication(toks, old(At())) == AppLoop(toks, e, At())
        decreases |toks| - pos
      {
        var t := Look();
        if !StartsAtom(t) { return Got(e); }
        r := Atom();
        if r.Bad? { return; }
        e := App(e, r.val);
      }
    }

    method Atom() returns (r: Read<Expr>)
      requires Within()
      modifies this`pos, this`parens, this`depth
      ensures Meets(r, At(), ParseAtom(toks, old(At())))
      decreases |toks| - pos, 2
    {
      hide ParseParens, ParseLambda, ParseWord;
      var t := Look();
      match t
      case Some(Num(n)) =>
        pos := pos + 1;
        r := Got(Lit(Value.Num(n)));
      case Some(Str(s)) =>
        pos := pos + 1;
        r := Got(Lit(Value.Str(s)));
      case Some(LParen) =>
        pos := pos + 1;
        r := Parenthesized();
      case Some(Lambda) =>
        pos := pos + 1;
        r := Function();
      case Some(Minus) =>
        pos := pos + 1;
        r := Atom();
        if r.Got? { r := Got(Call2("sub", Lit(Value.Num(ZERO)), r.val)); }
      case Some(Ident(s)) =>
        pos := pos + 1;
        r := Spoken(s);
      case _ => r := Bad(Line(), WantExpr);
    }

    method Parenthesized() returns (r: Read<Expr>)
      requires Within()
      modifies this`pos, this`parens, this`depth
      ensures Meets(r, At(), ParseParens(toks, old(At())))
      decreases |toks| - pos, 7
    {
      hide ParseExpr;
      parens := parens + 1;
      r := Expression();
      if r.Bad? { return; }
      parens := parens - 1;
      var closed := ExpectTok(RParen, WantClose);
      if closed.Bad? { r := Bad(closed.line, closed.what); }
    }

    method Function() returns (r: Read<Expr>)
      requires Within()
      modifies this`pos, this`parens, this`depth
      ensures Meets(r, At(), ParseLambda(toks, old(At())))
      decreases |toks| - pos, 0
    {
      hide ParseExpr;
      var x := Ident(WantParam);
      if x.Bad? { return Bad(x.line, x.what); }
      var arrow := ExpectTok(Arrow, WantArrow);
      if arrow.Bad? { return Bad(arrow.line, arrow.what); }
      r := Expression();
      if r.Got? { r := Got(Lam(x.val, r.val)); }
    }

    method Spoken(s: string) returns (r: Read<Expr>)
      requires Within()
      modifies this`pos, this`parens, this`depth
      ensures Meets(r, At(), ParseWord(toks, s, old(At())))
      decreases |toks| - pos, 3
    {
      hide ParseAtom, WordOf;
      match WordOf(s)
      case ArgW => r := Got(Arg);
      case LegeW => r := Got(Lege);
      case Verum => r := Got(Lit(Bool(true)));
      case Falsum => r := Got(Lit(Bool(false)));
      case AskW =>
        var x := Named();
        r := if x.Got? then Got(Ask(x.val)) else Bad(x.line, x.what);
      case ResolveW =>
        var x := Named();
        if x.Bad? { return Bad(x.line, x.what); }
        r := Atom();
        if r.Got? { r := Got(Resolve(x.val, r.val)); }
      case PureW =>
        r := Atom();
        if r.Got? { r := Got(Pure(Dorian, r.val)); }
      case Leva =>
        r := Atom();
        if r.Got? { r := Got(Lift(r.val)); }
      case PoneW =>
        r := Atom();
        if r.Got? { r := Got(Pone(r.val)); }
      case _ => r := Got(Var(s));
    }

    // --- statements ---

    method Keyword(w: Word) returns (b: bool)
      requires Within() && !w.Name?
      modifies this`pos
      ensures var p := Peek(toks, old(At())); b == (HeadWord(toks, p) == w) && At() == if b then Past(p) else p
      ensures b ==> pos <= |toks|
    {
      hide WordOf;
      var t := Look();
      match t {
        case Some(Ident(s)) => b := WordOf(s) == w;
        case _ => b := false;
      }
      if b { pos := pos + 1; }
    }

    method CloseStmts() returns (r: Read<()>)
      requires Within()
      modifies this`pos
      ensures Meets(r, At(), Close(toks, old(At())))
    {
      SkipNewlines();
      r := ExpectTok(RBrace, WantBrace);
    }

    method Cadence(mode: Mode, w: Word) returns (r: Read<Expr>)
      requires Within()
      modifies this`pos, this`parens, this`depth
      ensures Meets(r, At(), ParseCadence(toks, old(At()), mode, w))
    {
      hide ParseExpr, Close;
      r := Expression();
      if r.Bad? { return; }
      var closed := CloseStmts();
      r := if closed.Got? then Got(Cadential(w, mode, r.val)) else Bad(closed.line, closed.what);
    }

    method Effect(mode: Mode, w: Word) returns (r: Read<Expr>)
      requires Within()
      modifies this`pos, this`parens, this`depth
      ensures Meets(r, At(), ParseEffect(toks, old(At()), mode, w))
      decreases |toks| - pos, 0
    {
      hide ParseExpr, ParseStmts;
      var e := Expression();
      if e.Bad? { return e; }
      r := Stmts(mode);
      if r.Got? { r := Got(Bind(mode, if w.PoneW? then Pone(e.val) else Mitte(e.val), "_", r.val)); }
    }

    method BindStmt(mode: Mode) returns (r: Read<Expr>)
      requires Within()
      modifies this`pos, this`parens, this`depth
      ensures Meets(r, At(), ParseBind(toks, old(At()), mode))
      decreases |toks| - pos, 0
    {
      hide ParseExpr, ParseStmts;
      var x := Ident(WantStatement);
      if x.Bad? { return Bad(x.line, x.what); }
      var arrow := ExpectTok(BindArrow, WantBindArrow);
      if arrow.Bad? { return Bad(arrow.line, arrow.what); }
      var m := Expression();
      if m.Bad? { return m; }
      r := Stmts(mode);
      if r.Got? { r := Got(Bind(mode, m.val, x.val, r.val)); }
    }

    method OpenBlock(what: Gripe) returns (r: Read<()>)
      requires Within()
      modifies this`pos
      ensures Meets(r, At(), Expect(toks, Lines(toks, old(At())), LBrace, what))
    {
      SkipNewlines();
      r := ExpectTok(LBrace, what);
    }

    method Branches(mode: Mode) returns (r: Read<Expr>)
      requires Within()
      modifies this`pos, this`parens, this`depth
      ensures Meets(r, At(), ParseBranches(toks, old(At()), mode))
      decreases |toks| - pos, 2
    {
      hide ParseExpr, ParseStmts, ParseElse, HeadWord;
      var b := Expression();
      if b.Bad? { return b; }
      var tunc := Keyword(Tunc);
      if !tunc { return Bad(Line(), WantTunc); }
      var brace := OpenBlock(WantThen);
      if brace.Bad? { return Bad(brace.line, brace.what); }
      var t := Stmts(mode);
      if t.Bad? { return t; }
      r := Otherwise(mode, b.val, t.val);
    }

    method Otherwise(mode: Mode, b: Expr, t: Expr) returns (r: Read<Expr>)
      requires Within()
      modifies this`pos, this`parens, this`depth
      ensures Meets(r, At(), ParseElse(toks, old(At()), mode, b, t))
      decreases |toks| - pos, 2
    {
      hide ParseStmts, HeadWord, Close;
      SkipNewlines();
      var aliter := Keyword(Aliter);
      if !aliter { return Bad(Line(), WantAliter); }
      var brace := OpenBlock(WantElse);
      if brace.Bad? { return Bad(brace.line, brace.what); }
      var f := Stmts(mode);
      if f.Bad? { return f; }
      var closed := CloseStmts();
      r := if closed.Got? then Got(If(b, t, f.val)) else Bad(closed.line, closed.what);
    }

    method Stmts(mode: Mode) returns (r: Read<Expr>)
      requires Within()
      modifies this`pos, this`parens, this`depth
      ensures Meets(r, At(), ParseStmts(toks, old(At()), mode))
      decreases |toks| - pos, 3
    {
      hide HeadWord, ParseStmts, ParseCadence, ParseEffect, ParseBind, ParseBranches, Close;
      SkipNewlines();
      var t := Look();
      var w := HeadWord(toks, At());
      Dispatched(toks, old(At()), mode);
      if w.Name? || !Heads(w) {
        r := BindStmt(mode);
      } else {
        pos := pos + 1;
        if w.NihilW? {
          var closed := CloseStmts();
          r := if closed.Got? then Got(Nihil) else Bad(closed.line, closed.what);
        } else if w.Si? {
          r := Branches(mode);
        } else if w.PoneW? || w.MitteW? {
          r := Effect(mode, w);
        } else {
          r := Cadence(mode, w);
        }
      }
    }

    // --- the sung form ---

    /** Drain the heads of the sung lines from the tokens, in place. */
    method LiturgicalStrip() returns (r: Read<seq<Rhyme>>)
      requires Within()
      modifies this`toks
      ensures match Strip(old(toks), pos)
              case Stripped(ts, rhymes) => toks == ts && r == Got(rhymes)
              case Malformed(l, w) => r == Bad(l, w)
    {
      hide HeadAt;
      var i := pos;
      while i < |toks| && toks[i].t == Newline
        invariant pos <= i <= |toks| && PastNewlines(toks, i) == PastNewlines(toks, pos)
      {
        i := i + 1;
      }
      if !HeadAt(toks, i) { return Got([]); }
      var j, open, atStart, rhymes := i, 1, true, [];
      while j < |toks| && !(toks[j].t.RBrace? && open == 1)
        invariant pos <= i <= j <= |toks| && i <= |old(toks)| && open > 0
        invariant StripFrom(old(toks), i, 1, true, []) == StripFrom(toks, j, open, atStart, rhymes)
        decreases |toks| - j
      {
        var t := toks[j].t;
        if t.LBrace? {
          open := open + 1;
        } else if t.RBrace? {
          open := open - 1;
        } else if t.Newline? {
          atStart := true;
          j := j + 1;
          continue;
        } else if atStart && HeadAt(toks, j) {
          SungHere(toks, j);
          if !(j + 2 < |toks| && toks[j + 2].t.Semi?) { return Bad(toks[j + 1].line, WantSemi); }
          rhymes := rhymes + [Rhyme(toks[j].t.s[0], toks[j + 1].t.s)];
          toks := toks[..j] + toks[j + 3..];
          atStart := false;
          continue;
        }
        atStart := false;
        j := j + 1;
      }
      assert StripFrom(toks, j, open, atStart, rhymes) == Stripped(toks, rhymes);
      var line := if pos < |toks| then toks[pos].line else 1;
      if |rhymes| != 8 { return Bad(line, WantEightLines(|rhymes|)); }
      if rhymes[6].letter != rhymes[7].letter { return Bad(line, WantCouplet); }
      for k := 0 to |rhymes|
        invariant FirstUnanswered(rhymes, k) == FirstUnanswered(rhymes, 0)
      {
        if Count(rhymes, rhymes[k].letter) < 2 { return Bad(line, Unanswered(rhymes[k].letter)); }
      }
      r := Got(rhymes);
    }

    lemma SungHere(ts: Toks, j: nat)
      requires HeadAt(ts, j)
      ensures j + 1 < |ts| && ts[j].t.Ident? && |ts[j].t.s| == 1 && ts[j + 1].t.Str?
    {
    }

    /** A verse's body, after its opening brace. */
    method Body(mode: Mode) returns (r: Read<(Expr, seq<Rhyme>)>)
      requires Within()
      modifies this
      ensures Meets(r, At(), ParseBody(old(toks), old(At()), mode))
    {
      hide ParseStmts, Strip;
      var rhymes := LiturgicalStrip();
      if rhymes.Bad? { return Bad(rhymes.line, rhymes.what); }
      var b := Stmts(mode);
      r := if b.Got? then Got((b.val, rhymes.val)) else Bad(b.line, b.what);
    }
  }
}
