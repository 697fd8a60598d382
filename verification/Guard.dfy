/** The nesting guard is exact: a printed expression parses if and only if its nesting fits, and
    otherwise is refused as too deep (parser.rs). */
module Guard {
  import opened Core
  import opened Grammar
  import opened Printing

  predicate TooDeepIn(r: Parsed<Expr>) {
    r.Err? && r.what == TooDeep
  }

  /** The parser of level `l`, started at `c`, refuses. */
  predicate Refused(l: nat, toks: Toks, c: Cursor)
    requires c.pos <= |toks|
  {
    match l
    case 0 => TooDeepIn(ParseExpr(toks, c))
    case 1 => TooDeepIn(ParseSum(toks, c))
    case 2 => TooDeepIn(ParseProduct(toks, c))
    case 3 => TooDeepIn(ParseApplication(toks, c))
    case _ => TooDeepIn(ParseAtom(toks, c))
  }

  lemma {:induction false} RefusedTo(l: nat, top: nat, toks: Toks, c: Cursor)
    requires c.pos <= |toks| && 1 <= l <= top <= 4 && Refused(top, toks, c)
    ensures Refused(l, toks, c)
    decreases top
  {
    hide ParseAtom;
    if l < top { RefusedTo(l, top - 1, toks, c); }
  }

  lemma RefusedOpen(toks: Toks, c: Cursor)
    requires c.pos <= |toks|
    requires c.depth + 1 > MAX_EXPR_DEPTH || Refused(1, toks, c.(depth := c.depth + 1))
    ensures Refused(0, toks, c)
  {
    hide ParseSum;
  }

  /** Printed text that nests past the guard is refused, whatever follows it. */
  lemma {:induction false} TooDeepRefused(l: nat, toks: Toks, c: Cursor, e: Expr)
    requires Expressible(e) && l <= 4 && Reads(toks, c.pos, Print(l, e)) && c.depth + Nest(l, e) > MAX_EXPR_DEPTH
    requires l == 0 || c.depth <= MAX_EXPR_DEPTH
    ensures Refused(l, toks, c)
    decreases e, if l == 0 then 2 else 4
  {
    hide WordOf, Bare, NestBare, ShapeOf, Expressible, Refused;
    if l > LevelOf(e) {
      ParenRefused(toks, c, e);
      RefusedTo(l, 4, toks, c);
    } else if l == 0 {
      if c.depth + 1 <= MAX_EXPR_DEPTH {
        var c1 := c.(depth := c.depth + 1);
        BareRefused(toks, c1, e);
        RefusedTo(1, if LevelOf(e) == 0 then 4 else LevelOf(e), toks, c1);
      }
      RefusedOpen(toks, c);
    } else {
      BareRefused(toks, c, e);
      RefusedTo(l, LevelOf(e), toks, c);
    }
  }

  lemma {:induction false} ParenRefused(toks: Toks, c: Cursor, e: Expr)
    requires Expressible(e) && Reads(toks, c.pos, [LParen] + Print(0, e) + [RParen]) && c.depth + Nest(0, e) > MAX_EXPR_DEPTH
    ensures Refused(4, toks, c)
    decreases e, 3
  {
    hide WordOf, Print, Nest, ParseExpr, Expressible, StartsAtom;
    var ts := Print(0, e);
    ReadsParts(toks, c.pos, [LParen] + ts, [RParen]);
    ReadsParts(toks, c.pos, [LParen], ts);
    Looks(toks, c, LParen);
    var c1 := Past(c).(parens := c.parens + 1);
    TooDeepRefused(0, toks, c1, e);
    assert TooDeepIn(ParseParens(toks, Past(c)));
  }

  lemma {:induction false} BareRefused(toks: Toks, c: Cursor, e: Expr)
    requires Expressible(e) && Reads(toks, c.pos, Bare(e)) && c.depth + NestBare(e) > MAX_EXPR_DEPTH && c.depth <= MAX_EXPR_DEPTH
    ensures Refused(if LevelOf(e) == 0 then 4 else LevelOf(e), toks, c)
    decreases e, 1
  {
    hide WordOf, Refused, Bare, StartsAtom, ProductName, SumName;
    ArgumentsExpressible(e);
    match e
    case Lam(_, _) => LambdaRefused(toks, c, e);
    case App(_, _) =>
      match ShapeOf(e) {
        case SumS(sign, p, q) => SumRefused(toks, c, e, sign, p, q);
        case ProductS(sign, p, q) => ProductRefused(toks, c, e, sign, p, q);
        case OtherS => AppRefused(toks, c, e);
      }
    case Lit(_) | Arg | Lege | Ask(_) | Var(_) =>
    case Resolve(_, _) | Pure(_, _) | Lift(_) | Pone(_) => PrefixRefused(toks, c, e);
  }

  lemma {:induction false} LambdaRefused(toks: Toks, c: Cursor, e: Expr)
    requires e.Lam? && Expressible(e) && Reads(toks, c.pos, Bare(e)) && c.depth + NestBare(e) > MAX_EXPR_DEPTH
    ensures Refused(4, toks, c)
    decreases e, 0
  {
    hide WordOf, Print, Nest, ParseExpr, StartsAtom;
    var head, ts := [Lambda, Ident(e.x), Arrow], Print(0, e.body);
    ReadsParts(toks, c.pos, head, ts);
    ThreeRead(toks, c, Lambda, Ident(e.x), Arrow);
    TooDeepRefused(0, toks, After(c, head), e.body);
    assert TooDeepIn(ParseLambda(toks, Past(c)));
  }

  lemma {:induction false} SumRefused(toks: Toks, c: Cursor, e: Expr, sign: Tok, p: Expr, q: Expr)
    requires ShapeOf(e) == SumS(sign, p, q) && Expressible(p) && Expressible(q) && c.depth <= MAX_EXPR_DEPTH
    requires Reads(toks, c.pos, Bare(e)) && c.depth + NestBare(e) > MAX_EXPR_DEPTH
    ensures Refused(1, toks, c)
    decreases e, 0
  {
    hide WordOf, Print, Nest, ParseProduct, ParseSum, StartsAtom, ProductName, SumName;
    var left, right := Print(1, p), Print(2, q);
    ReadsParts(toks, c.pos, left + [sign], right);
    ReadsParts(toks, c.pos, left, [sign]);
    if c.depth + Nest(1, p) > MAX_EXPR_DEPTH {
      TooDeepRefused(1, toks, c, p);
    } else {
      var mid := After(c, left);
      SignLooks(toks, mid, sign);
      Parses(1, toks, c, p);
      TooDeepRefused(2, toks, Past(mid), q);
      assert TooDeepIn(SumLoop(toks, p, mid));
    }
  }

  lemma {:induction false} ProductRefused(toks: Toks, c: Cursor, e: Expr, sign: Tok, p: Expr, q: Expr)
    requires ShapeOf(e) == ProductS(sign, p, q) && Expressible(p) && Expressible(q) && c.depth <= MAX_EXPR_DEPTH
    requires Reads(toks, c.pos, Bare(e)) && c.depth + NestBare(e) > MAX_EXPR_DEPTH
    ensures Refused(2, toks, c)
    decreases e, 0
  {
    hide WordOf, Print, Nest, ParseProduct, ParseApplication, StartsAtom, ProductName, SumName;
    var left, right := Print(2, p), Print(3, q);
    ReadsParts(toks, c.pos, left + [sign], right);
    ReadsParts(toks, c.pos, left, [sign]);
    if c.depth + Nest(2, p) > MAX_EXPR_DEPTH {
      TooDeepRefused(2, toks, c, p);
    } else {
      var mid := After(c, left);
      SignLooks(toks, mid, sign);
      Parses(2, toks, c, p);
      TooDeepRefused(3, toks, Past(mid), q);
      assert TooDeepIn(ProductLoop(toks, p, mid));
    }
  }

  lemma {:induction false} AppRefused(toks: Toks, c: Cursor, e: Expr)
    requires e.App? && ShapeOf(e).OtherS? && Expressible(e) && c.depth <= MAX_EXPR_DEPTH
    requires Reads(toks, c.pos, Bare(e)) && c.depth + NestBare(e) > MAX_EXPR_DEPTH
    ensures Refused(3, toks, c)
    decreases e, 0
  {
    hide WordOf, Print, Nest, ParseAtom, ParseApplication, StartsAtom, ProductName, SumName, ShapeOf;
    var left, right := Print(3, e.f), Print(4, e.a);
    ReadsParts(toks, c.pos, left, right);
    if c.depth + Nest(3, e.f) > MAX_EXPR_DEPTH {
      TooDeepRefused(3, toks, c, e.f);
    } else {
      var mid := After(c, left);
      Begins(4, e.a);
      assert right == [right[0]] + right[1..];
      ReadsParts(toks, mid.pos, [right[0]], right[1..]);
      Looks(toks, mid, right[0]);
      Parses(3, toks, c, e.f);
      TooDeepRefused(4, toks, mid, e.a);
      assert TooDeepIn(AppLoop(toks, e.f, mid));
    }
  }

  lemma {:induction false} PrefixRefused(toks: Toks, c: Cursor, e: Expr)
    requires (e.Resolve? || e.Pure? || e.Lift? || e.Pone?) && Expressible(e) && c.depth <= MAX_EXPR_DEPTH
    requires Reads(toks, c.pos, Bare(e)) && c.depth + NestBare(e) > MAX_EXPR_DEPTH
    ensures Refused(LevelOf(e), toks, c)
    decreases e, 0
  {
    hide WordOf, Print, Nest, StartsAtom, ParseAtom, NameArg;
    Spelled();
    if e.Resolve? {
      var head := [Ident("resolve"), Tok.Str(e.x)];
      assert Bare(e) == head + Print(4, e.g);
      ReadsParts(toks, c.pos, head, Print(4, e.g));
      assert head == [Ident("resolve")] + [Tok.Str(e.x)];
      ReadsParts(toks, c.pos, [Ident("resolve")], [Tok.Str(e.x)]);
      Named(toks, Past(c), e.x);
      WordRead(toks, c, "resolve");
      TooDeepRefused(4, toks, After(c, head), e.g);
    } else {
      var w := if e.Pure? then "pure" else if e.Lift? then "leva" else "pone";
      assert Bare(e) == [Ident(w)] + Print(4, e.m);
      ReadsParts(toks, c.pos, [Ident(w)], Print(4, e.m));
      WordRead(toks, c, w);
      TooDeepRefused(4, toks, Past(c), e.m);
      if e.Pone? { RefusedTo(3, 4, toks, c); }
    }
  }

  lemma Named(toks: Toks, c: Cursor, x: string)
    requires Reads(toks, c.pos, [Tok.Str(x)])
    ensures NameArg(toks, c) == Ok(x, Past(c))
  {
    Looks(toks, c, Tok.Str(x));
  }

  /** The guard in one statement: printed text followed by an end parses exactly when its nesting
      fits, and is otherwise refused as too deep. */
  lemma GuardIsExact(toks: Toks, c: Cursor, e: Expr)
    requires Expressible(e) && Reads(toks, c.pos, Print(0, e)) && Ends(0, toks, After(c, Print(0, e)))
    ensures var r := ParseExpr(toks, c);
            if c.depth + Nest(0, e) <= MAX_EXPR_DEPTH then r == Ok(e, After(c, Print(0, e))) else r.Err? && r.what == TooDeep
  {
    hide Print, Nest, Expressible, Ends, ParseExpr;
    if c.depth + Nest(0, e) <= MAX_EXPR_DEPTH { PrintedParses(toks, c, e); } else { TooDeepRefused(0, toks, c, e); }
  }
}
