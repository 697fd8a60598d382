/** Where the parser complains: at the line of a token it has come to, never before where it
    started, and past the end at the last one (parser.rs). */
module Complaints {
  import opened Core
  import opened Grammar
  import opened Score
  import opened Liturgy

  /** The line of position `p`. */
  function LineOf(toks: Toks, p: nat): nat {
    if p < |toks| then toks[p].line else if toks == [] then 1 else toks[|toks| - 1].line
  }

  /** An error is at a token from the cursor on, or at the end. */
  predicate Placed<T>(toks: Toks, c: Cursor, r: Parsed<T>) {
    r.Err? ==> exists p: nat :: c.pos <= p <= |toks| && r.line == LineOf(toks, p)
  }

  lemma Failed<T>(toks: Toks, c: Cursor, c': Cursor, what: Gripe, r: Parsed<T>)
    requires c.pos <= c'.pos <= |toks| && r == Fail(toks, c', what)
    ensures Placed(toks, c, r)
  {
    assert r.line == LineOf(toks, c'.pos);
  }

  lemma Later<T>(toks: Toks, c: Cursor, c': Cursor, r: Parsed<T>)
    requires c.pos <= c'.pos && Placed(toks, c', r)
    ensures Placed(toks, c, r)
  {
  }

  lemma ExpectPlaced(toks: Toks, c: Cursor, want: Tok, what: Gripe)
    requires c.pos <= |toks|
    ensures Placed(toks, c, Expect(toks, c, want, what))
  {
    hide Placed;
    var r := Expect(toks, c, want, what);
    if r.Ok? { Fine(toks, c, r); } else { Failed(toks, c, Peek(toks, c), what, r); }
  }

  lemma WordExpected(toks: Toks, c: Cursor, w: Word, what: Gripe)
    requires c.pos <= |toks| && !w.Name?
    ensures Placed(toks, c, ExpectWord(toks, c, w, what))
  {
    hide Placed, HeadWord;
    var r := ExpectWord(toks, c, w, what);
    if r.Ok? { Fine(toks, c, r); } else { Failed(toks, c, Peek(toks, c), what, r); }
  }

  lemma ClosePlaced(toks: Toks, c: Cursor)
    requires c.pos <= |toks|
    ensures Placed(toks, c, Close(toks, c))
  {
    hide Placed, Expect;
    ExpectPlaced(toks, Lines(toks, c), RBrace, WantBrace);
    Later(toks, c, Lines(toks, c), Close(toks, c));
  }

  lemma Fine<T>(toks: Toks, c: Cursor, r: Parsed<T>)
    requires r.Ok?
    ensures Placed(toks, c, r)
  {
  }

  /** What is missing is blamed on the token in its place; a name that is missing on the token after. */
  lemma Blamed(toks: Toks, c: Cursor, want: Tok, what: Gripe)
    requires c.pos <= |toks|
    ensures var p := Peek(toks, c).pos;
            && (Expect(toks, c, want, what).Err? ==> Expect(toks, c, want, what).line == LineOf(toks, p))
            && (Identifier(toks, c, what).Err? ==>
                 Identifier(toks, c, what).line == LineOf(toks, if p < |toks| then p + 1 else p))
            && (NameArg(toks, c).Err? ==> NameArg(toks, c).line == LineOf(toks, if p < |toks| then p + 1 else p))
  {
  }

  lemma IdentifierPlaced(toks: Toks, c: Cursor, what: Gripe)
    requires c.pos <= |toks|
    ensures Placed(toks, c, Identifier(toks, c, what))
  {
    hide Placed;
    var p, r := Peek(toks, c), Identifier(toks, c, what);
    if r.Ok? { Fine(toks, c, r); } else { Failed(toks, c, if p.pos < |toks| then Past(p) else p, what, r); }
  }

  lemma NamePlaced(toks: Toks, c: Cursor)
    requires c.pos <= |toks|
    ensures Placed(toks, c, NameArg(toks, c))
  {
    hide Placed;
    var p, r := Peek(toks, c), NameArg(toks, c);
    if r.Ok? { Fine(toks, c, r); } else { Failed(toks, c, if p.pos < |toks| then Past(p) else p, WantName, r); }
  }

  lemma {:induction false} ExprPlaced(toks: Toks, c: Cursor)
    requires c.pos <= |toks|
    ensures Placed(toks, c, ParseExpr(toks, c))
    decreases |toks| - c.pos, 6
  {
    hide ParseSum;
    if c.depth + 1 > MAX_EXPR_DEPTH { Failed(toks, c, c, TooDeep, ParseExpr(toks, c)); } else { SumPlaced(toks, c.(depth := c.depth + 1)); }
  }

  lemma {:induction false} SumPlaced(toks: Toks, c: Cursor)
    requires c.pos <= |toks|
    ensures Placed(toks, c, ParseSum(toks, c))
    decreases |toks| - c.pos, 5
  {
    hide ParseProduct, SumLoop;
    ProductPlaced(toks, c);
    var r := ParseProduct(toks, c);
    if r.Ok? {
      SumLoopPlaced(toks, r.val, r.at);
      Later(toks, c, r.at, SumLoop(toks, r.val, r.at));
    }
  }

  lemma {:induction false} SumLoopPlaced(toks: Toks, lhs: Expr, c: Cursor)
    requires c.pos <= |toks|
    ensures Placed(toks, c, SumLoop(toks, lhs, c))
    decreases |toks| - c.pos, 0
  {
    hide ParseProduct, SumName;
    var p := Peek(toks, c);
    if SumName(TokAt(toks, p)).Some? {
      SignedToken(toks, p);
      var r := ParseProduct(toks, Past(p));
      ProductPlaced(toks, Past(p));
      Later(toks, c, Past(p), r);
      if r.Ok? {
        var e := Call2(SumName(TokAt(toks, p)).value, lhs, r.val);
        SumLoopPlaced(toks, e, r.at);
        Later(toks, c, r.at, SumLoop(toks, e, r.at));
      }
    }
  }

  lemma SignedToken(toks: Toks, c: Cursor)
    requires SumName(TokAt(toks, c)).Some? || ProductName(TokAt(toks, c)).Some?
    ensures c.pos < |toks|
  {
  }

  lemma {:induction false} ProductPlaced(toks: Toks, c: Cursor)
    requires c.pos <= |toks|
    ensures Placed(toks, c, ParseProduct(toks, c))
    decreases |toks| - c.pos, 4
  {
    hide ParseApplication, ProductLoop;
    ApplicationPlaced(toks, c);
    var r := ParseApplication(toks, c);
    if r.Ok? {
      ProductLoopPlaced(toks, r.val, r.at);
      Later(toks, c, r.at, ProductLoop(toks, r.val, r.at));
    }
  }

  lemma {:induction false} ProductLoopPlaced(toks: Toks, lhs: Expr, c: Cursor)
    requires c.pos <= |toks|
    ensures Placed(toks, c, ProductLoop(toks, lhs, c))
    decreases |toks| - c.pos, 0
  {
    hide ParseApplication, ProductName;
    var p := Peek(toks, c);
    if ProductName(TokAt(toks, p)).Some? {
      SignedToken(toks, p);
      var r := ParseApplication(toks, Past(p));
      ApplicationPlaced(toks, Past(p));
      Later(toks, c, Past(p), r);
      if r.Ok? {
        var e := Call2(ProductName(TokAt(toks, p)).value, lhs, r.val);
        ProductLoopPlaced(toks, e, r.at);
        Later(toks, c, r.at, ProductLoop(toks, e, r.at));
      }
    }
  }

  lemma {:induction false} ApplicationPlaced(toks: Toks, c: Cursor)
    requires c.pos <= |toks|
    ensures Placed(toks, c, ParseApplication(toks, c))
    decreases |toks| - c.pos, 3
  {
    hide ParseAtom, AppLoop;
    AtomPlaced(toks, c);
    var r := ParseAtom(toks, c);
    if r.Ok? {
      AppLoopPlaced(toks, r.val, r.at);
      Later(toks, c, r.at, AppLoop(toks, r.val, r.at));
    }
  }

  lemma {:induction false} AppLoopPlaced(toks: Toks, f: Expr, c: Cursor)
    requires c.pos <= |toks|
    ensures Placed(toks, c, AppLoop(toks, f, c))
    decreases |toks| - c.pos, 2
  {
    hide ParseAtom, StartsAtom;
    var p := Peek(toks, c);
    if StartsAtom(TokAt(toks, p)) {
      var r := ParseAtom(toks, p);
      AtomPlaced(toks, p);
      Later(toks, c, p, r);
      if r.Ok? {
        AppLoopPlaced(toks, App(f, r.val), r.at);
        Later(toks, c, r.at, AppLoop(toks, App(f, r.val), r.at));
      }
    }
  }

  lemma {:induction false} AtomPlaced(toks: Toks, c: Cursor)
    requires c.pos <= |toks|
    ensures Placed(toks, c, ParseAtom(toks, c))
    decreases |toks| - c.pos, 1
  {
    hide ParseParens, ParseLambda, WordOf, ParseWord, Placed;
    var p, r := Peek(toks, c), ParseAtom(toks, c);
    match TokAt(toks, p)
    case Some(LParen) =>
      ParensPlaced(toks, Past(p));
      Later(toks, c, Past(p), r);
    case Some(Lambda) =>
      LambdaPlaced(toks, Past(p));
      Later(toks, c, Past(p), r);
    case Some(Minus) =>
      AtomPlaced(toks, Past(p));
      Later(toks, c, Past(p), ParseAtom(toks, Past(p)));
      SameError(toks, c, ParseAtom(toks, Past(p)), r);
    case Some(Ident(s)) =>
      WordPlaced(toks, s, Past(p));
      Later(toks, c, Past(p), r);
    case _ =>
      if r.Ok? { Fine(toks, c, r); } else { Failed(toks, c, p, WantExpr, r); }
  }

  lemma SameError<T, U>(toks: Toks, c: Cursor, a: Parsed<T>, b: Parsed<U>)
    requires Placed(toks, c, a) && (b.Err? ==> a.Err? && a.line == b.line)
    ensures Placed(toks, c, b)
  {
  }

  lemma {:induction false} ParensPlaced(toks: Toks, c: Cursor)
    requires c.pos <= |toks|
    ensures Placed(toks, c, ParseParens(toks, c))
    decreases |toks| - c.pos, 7
  {
    hide ParseExpr, Placed;
    var r, i := ParseParens(toks, c), c.(parens := c.parens + 1);
    ExprPlaced(toks, i);
    var e := ParseExpr(toks, i);
    Later(toks, c, i, e);
    if e.Err? {
      SameError(toks, c, e, r);
    } else {
      var c1 := e.at.(parens := e.at.parens - 1);
      ExpectPlaced(toks, c1, RParen, WantClose);
      Later(toks, c, c1, Expect(toks, c1, RParen, WantClose));
      SameError(toks, c, Expect(toks, c1, RParen, WantClose), r);
    }
  }

  lemma {:induction false} LambdaPlaced(toks: Toks, c: Cursor)
    requires c.pos <= |toks|
    ensures Placed(toks, c, ParseLambda(toks, c))
    decreases |toks| - c.pos, 0
  {
    hide ParseExpr, Placed, Expect, Identifier;
    var r, x := ParseLambda(toks, c), Identifier(toks, c, WantParam);
    IdentifierPlaced(toks, c, WantParam);
    if x.Err? {
      SameError(toks, c, x, r);
    } else {
      var a := Expect(toks, x.at, Arrow, WantArrow);
      ExpectPlaced(toks, x.at, Arrow, WantArrow);
      Later(toks, c, x.at, a);
      if a.Err? {
        SameError(toks, c, a, r);
      } else {
        ExprPlaced(toks, a.at);
        Later(toks, c, a.at, ParseExpr(toks, a.at));
        SameError(toks, c, ParseExpr(toks, a.at), r);
      }
    }
  }

  lemma {:induction false} WordPlaced(toks: Toks, s: string, c: Cursor)
    requires c.pos <= |toks|
    ensures Placed(toks, c, ParseWord(toks, s, c))
    decreases |toks| - c.pos, 2
  {
    hide ParseAtom, WordOf, Placed, NameArg;
    var r := ParseWord(toks, s, c);
    if r.Ok? {
      Fine(toks, c, r);
    } else {
      NamePlaced(toks, c);
      match WordOf(s)
      case AskW => SameError(toks, c, NameArg(toks, c), r);
      case ResolveW =>
        var x := NameArg(toks, c);
        if x.Err? {
          SameError(toks, c, x, r);
        } else {
          AtomPlaced(toks, x.at);
          Later(toks, c, x.at, ParseAtom(toks, x.at));
          SameError(toks, c, ParseAtom(toks, x.at), r);
        }
      case PureW | Leva | PoneW =>
        AtomPlaced(toks, c);
        SameError(toks, c, ParseAtom(toks, c), r);
      case _ =>
    }
  }

  // --- statements ---

  lemma {:induction false} StmtsPlaced(toks: Toks, c: Cursor, mode: Mode)
    requires c.pos <= |toks|
    ensures Placed(toks, c, ParseStmts(toks, c, mode))
    decreases |toks| - c.pos, 1
  {
    hide WordOf, ParseCadence, ParseBranches, ParseEffect, ParseBind, Close, Placed;
    var p, r := Peek(toks, Lines(toks, c)), ParseStmts(toks, c, mode);
    var w := HeadWord(toks, p);
    if w.Amen? || w.ClamaW? || w.PerageW? {
      CadencePlaced(toks, Past(p), mode, w);
      Later(toks, c, Past(p), r);
    } else if w.NihilW? {
      ClosePlaced(toks, Past(p));
      Later(toks, c, Past(p), Close(toks, Past(p)));
      SameError(toks, c, Close(toks, Past(p)), r);
    } else if w.Si? {
      BranchesPlaced(toks, Past(p), mode);
      Later(toks, c, Past(p), r);
    } else if w.PoneW? || w.MitteW? {
      EffectPlaced(toks, Past(p), mode, w);
      Later(toks, c, Past(p), r);
    } else {
      BindPlaced(toks, p, mode);
      Later(toks, c, p, r);
    }
  }

  lemma CadencePlaced(toks: Toks, c: Cursor, mode: Mode, cadence: Word)
    requires c.pos <= |toks|
    ensures Placed(toks, c, ParseCadence(toks, c, mode, cadence))
  {
    hide ParseExpr, Close, Placed;
    var r, e := ParseCadence(toks, c, mode, cadence), ParseExpr(toks, c);
    ExprPlaced(toks, c);
    if e.Err? {
      SameError(toks, c, e, r);
    } else {
      ClosePlaced(toks, e.at);
      Later(toks, c, e.at, Close(toks, e.at));
      SameError(toks, c, Close(toks, e.at), r);
    }
  }

  lemma {:induction false} EffectPlaced(toks: Toks, c: Cursor, mode: Mode, effect: Word)
    requires c.pos <= |toks|
    ensures Placed(toks, c, ParseEffect(toks, c, mode, effect))
    decreases |toks| - c.pos, 0
  {
    hide ParseExpr, ParseStmts, Placed;
    var r, e := ParseEffect(toks, c, mode, effect), ParseExpr(toks, c);
    ExprPlaced(toks, c);
    if e.Err? {
      SameError(toks, c, e, r);
    } else {
      StmtsPlaced(toks, e.at, mode);
      Later(toks, c, e.at, ParseStmts(toks, e.at, mode));
      SameError(toks, c, ParseStmts(toks, e.at, mode), r);
    }
  }

  lemma {:induction false} BindPlaced(toks: Toks, c: Cursor, mode: Mode)
    requires c.pos <= |toks|
    ensures Placed(toks, c, ParseBind(toks, c, mode))
    decreases |toks| - c.pos, 0
  {
    hide ParseExpr, ParseStmts, Placed, Identifier, Expect;
    var r, x := ParseBind(toks, c, mode), Identifier(toks, c, WantStatement);
    IdentifierPlaced(toks, c, WantStatement);
    if x.Err? {
      SameError(toks, c, x, r);
    } else {
      var a := Expect(toks, x.at, BindArrow, WantBindArrow);
      ExpectPlaced(toks, x.at, BindArrow, WantBindArrow);
      Later(toks, c, x.at, a);
      if a.Err? {
        SameError(toks, c, a, r);
      } else {
        var e := ParseExpr(toks, a.at);
        ExprPlaced(toks, a.at);
        Later(toks, c, a.at, e);
        if e.Err? {
          SameError(toks, c, e, r);
        } else {
          StmtsPlaced(toks, e.at, mode);
          Later(toks, c, e.at, ParseStmts(toks, e.at, mode));
          SameError(toks, c, ParseStmts(toks, e.at, mode), r);
        }
      }
    }
  }

  lemma {:induction false} BranchesPlaced(toks: Toks, c: Cursor, mode: Mode)
    requires c.pos <= |toks|
    ensures Placed(toks, c, ParseBranches(toks, c, mode))
    decreases |toks| - c.pos, 2
  {
    hide ParseExpr, ParseStmts, Placed, ExpectWord, Expect, ParseElse;
    var r, b := ParseBranches(toks, c, mode), ParseExpr(toks, c);
    ExprPlaced(toks, c);
    if b.Err? {
      SameError(toks, c, b, r);
    } else {
      var tunc := ExpectWord(toks, b.at, Tunc, WantTunc);
      WordExpected(toks, b.at, Tunc, WantTunc);
      Later(toks, c, b.at, tunc);
      if tunc.Err? {
        SameError(toks, c, tunc, r);
      } else {
        var l := Lines(toks, tunc.at);
        var open := Expect(toks, l, LBrace, WantThen);
        ExpectPlaced(toks, l, LBrace, WantThen);
        Later(toks, c, l, open);
        if open.Err? { SameError(toks, c, open, r); } else { ThenPlaced(toks, c, mode, b.val, open.at, r); }
      }
    }
  }

  lemma {:induction false} ThenPlaced(toks: Toks, c: Cursor, mode: Mode, b: Expr, c': Cursor, r: Parsed<Expr>)
    requires c.pos < c'.pos <= |toks|
    requires r == match ParseStmts(toks, c', mode) case Err(l, w) => Err(l, w) case Ok(t, c4) => ParseElse(toks, c4, mode, b, t)
    ensures Placed(toks, c, r)
    decreases |toks| - c.pos, 0
  {
    hide ParseStmts, Placed, ParseElse;
    var t := ParseStmts(toks, c', mode);
    StmtsPlaced(toks, c', mode);
    Later(toks, c, c', t);
    if t.Err? {
      SameError(toks, c, t, r);
    } else {
      ElsePlaced(toks, t.at, mode, b, t.val);
      Later(toks, c, t.at, r);
    }
  }

  lemma {:induction false} ElsePlaced(toks: Toks, c: Cursor, mode: Mode, b: Expr, t: Expr)
    requires c.pos <= |toks|
    ensures Placed(toks, c, ParseElse(toks, c, mode, b, t))
    decreases |toks| - c.pos, 2
  {
    hide ParseStmts, Placed, ExpectWord, Expect, Close;
    var r, l := ParseElse(toks, c, mode, b, t), Lines(toks, c);
    var aliter := ExpectWord(toks, l, Aliter, WantAliter);
    WordExpected(toks, l, Aliter, WantAliter);
    Later(toks, c, l, aliter);
    if aliter.Err? {
      SameError(toks, c, aliter, r);
    } else {
      var l1 := Lines(toks, aliter.at);
      var open := Expect(toks, l1, LBrace, WantElse);
      ExpectPlaced(toks, l1, LBrace, WantElse);
      Later(toks, c, l1, open);
      if open.Err? {
        SameError(toks, c, open, r);
      } else {
        var f := ParseStmts(toks, open.at, mode);
        StmtsPlaced(toks, open.at, mode);
        Later(toks, c, open.at, f);
        if f.Err? {
          SameError(toks, c, f, r);
        } else {
          ClosePlaced(toks, f.at);
          Later(toks, c, f.at, Close(toks, f.at));
          SameError(toks, c, Close(toks, f.at), r);
        }
      }
    }
  }

  /** In a stream whose lines do not go back, an error is reported no earlier than the line the parser
      was given and no later than the last. */
  lemma ErrorsAhead(toks: Toks, c: Cursor, mode: Mode)
    requires c.pos < |toks| && forall i, j :: 0 <= i <= j < |toks| ==> toks[i].line <= toks[j].line
    ensures ParseStmts(toks, c, mode).Err? ==> toks[c.pos].line <= ParseStmts(toks, c, mode).line <= toks[|toks| - 1].line
  {
    hide ParseStmts;
    StmtsPlaced(toks, c, mode);
  }
}
