/** Expressions printed with as few parentheses as the grammar's levels allow, and the proof that
    parsing undoes printing. */
module Printing {
  import opened Core
  import opened Grammar

  // --- which expressions have a surface form ---

  /** A call of an arithmetic builtin on two arguments is written with its sign. */
  datatype Shape = SumS(sign: Tok, a: Expr, b: Expr) | ProductS(sign: Tok, a: Expr, b: Expr) | OtherS

  function ShapeOf(e: Expr): (r: Shape)
    ensures r.SumS? ==> SumName(Some(r.sign)).Some? && e == Call2(SumName(Some(r.sign)).value, r.a, r.b)
    ensures r.ProductS? ==> ProductName(Some(r.sign)).Some? && e == Call2(ProductName(Some(r.sign)).value, r.a, r.b)
    ensures !r.OtherS? ==> r.a < e && r.b < e
  {
    if e.App? && e.f.App? && e.f.f.Var? then
      match e.f.f.x
      case "add" => SumS(Plus, e.f.a, e.a)
      case "sub" => SumS(Minus, e.f.a, e.a)
      case "mul" => ProductS(Star, e.f.a, e.a)
      case "div" => ProductS(Slash, e.f.a, e.a)
      case _ => OtherS
    else OtherS
  }

  predicate Expressible(e: Expr) {
    match e
    case Lit(v) => v.Num? || v.Str? || v.Bool?
    case Var(x) => WordOf(x).Name? || (EndsApplication(WordOf(x)) && !WordOf(x).PoneW?)
    case Lam(_, b) => Expressible(b)
    case App(f, a) => Expressible(f) && Expressible(a)
    case Arg | Lege | Ask(_) => true
    case Resolve(_, g) => Expressible(g)
    case Pure(m, b) => m.Dorian? && Expressible(b)
    case Lift(b) => Expressible(b)
    case Pone(b) => Expressible(b)
    case _ => false
  }

  // --- printing ---

  /** The tightest place an expression can stand in without parentheses: 0 an open end, 1 left
      of a sum's sign, 2 left of a product's sign, 3 the head of an application, 4 anywhere. */
  function LevelOf(e: Expr): (l: nat)
    ensures l <= 4
  {
    match e
    case Lam(_, _) => 0
    case App(_, _) => (match ShapeOf(e) case SumS(_, _, _) => 1 case ProductS(_, _, _) => 2 case OtherS => 3)
    case Pone(_) => 3
    case Var(x) => if WordOf(x).Name? then 4 else 3
    case _ => 4
  }

  function Print(l: nat, e: Expr): seq<Tok>
    decreases e, l + 1
  {
    if l > LevelOf(e) then [LParen] + Print(0, e) + [RParen] else Bare(e)
  }

  function Bare(e: Expr): seq<Tok>
    decreases e, 0
  {
    match e
    case Lit(v) => [LitTok(v)]
    case Var(x) => [Ident(x)]
    case Lam(x, b) => [Lambda, Ident(x), Arrow] + Print(0, b)
    case App(f, a) =>
      (match ShapeOf(e)
       case SumS(sign, p, q) => Print(1, p) + [sign] + Print(2, q)
       case ProductS(sign, p, q) => Print(2, p) + [sign] + Print(3, q)
       case OtherS => Print(3, f) + Print(4, a))
    case Arg => [Ident("arg")]
    case Lege => [Ident("lege")]
    case Ask(x) => [Ident("ask"), Tok.Str(x)]
    case Resolve(x, g) => [Ident("resolve"), Tok.Str(x)] + Print(4, g)
    case Pure(_, m) => [Ident("pure")] + Print(4, m)
    case Lift(m) => [Ident("leva")] + Print(4, m)
    case Pone(m) => [Ident("pone")] + Print(4, m)
    case _ => []
  }

  function LitTok(v: Value): Tok {
    match v
    case Num(n) => Tok.Num(n)
    case Str(s) => Tok.Str(s)
    case Bool(b) => Ident(if b then "verum" else "falsum")
    case _ => Newline
  }

  /** How deep parsing the printed form recurses into expressions. */
  function Nest(l: nat, e: Expr): nat
    decreases e, 1
  {
    if l == 0 || l > LevelOf(e) then 1 + NestBare(e) else NestBare(e)
  }

  function NestBare(e: Expr): nat
    decreases e, 0
  {
    match e
    case Lam(_, b) => Nest(0, b)
    case App(f, a) =>
      (match ShapeOf(e)
       case SumS(_, p, q) => Max(Nest(1, p), Nest(2, q))
       case ProductS(_, p, q) => Max(Nest(2, p), Nest(3, q))
       case OtherS => Max(Nest(3, f), Nest(4, a)))
    case Resolve(_, g) => Nest(4, g)
    case Pure(_, m) => Nest(4, m)
    case Lift(m) => Nest(4, m)
    case Pone(m) => Nest(4, m)
    case _ => 0
  }

  function Max(a: nat, b: nat): nat {
    if a > b then a else b
  }

  // --- reading what was printed ---

  /** The tokens from `pos` on begin with `ts`. */
  predicate Reads(toks: Toks, pos: nat, ts: seq<Tok>) {
    pos + |ts| <= |toks| && forall i :: 0 <= i < |ts| ==> toks[pos + i].t == ts[i]
  }

  lemma ReadsParts(toks: Toks, pos: nat, a: seq<Tok>, b: seq<Tok>)
    requires Reads(toks, pos, a + b)
    ensures Reads(toks, pos, a) && Reads(toks, pos + |a|, b)
  {
    forall i | 0 <= i < |a| ensures toks[pos + i].t == a[i] { assert (a + b)[i] == a[i]; }
    forall i | 0 <= i < |b| ensures toks[pos + |a| + i].t == b[i] { assert (a + b)[|a| + i] == b[i]; }
  }

  function After(c: Cursor, ts: seq<Tok>): Cursor {
    c.(pos := c.pos + |ts|)
  }

  /** The token at the cursor ends an expression printed at level `l`. */
  predicate Ends(l: nat, toks: Toks, c: Cursor) {
    var t := TokAt(toks, c);
    l <= 2 ==>
      && !StartsAtom(t) && (c.parens > 0 ==> t != Some(Newline))
      && (l <= 1 ==> ProductName(t).None?)
      && (l == 0 ==> SumName(t).None?)
  }

  /** The parser of level `l`, started at `c`, has read `e` and goes on at `end`. */
  predicate Reached(l: nat, toks: Toks, c: Cursor, e: Expr, end: Cursor)
    requires c.pos <= |toks| && end.pos <= |toks|
  {
    match l
    case 0 => ParseExpr(toks, c) == Ok(e, end)
    case 1 => ParseSum(toks, c) == SumLoop(toks, e, end)
    case 2 => ParseProduct(toks, c) == ProductLoop(toks, e, end)
    case 3 => ParseApplication(toks, c) == AppLoop(toks, e, end)
    case _ => ParseAtom(toks, c) == Ok(e, end)
  }

  lemma Climb(l: nat, toks: Toks, c: Cursor, e: Expr, end: Cursor)
    requires c.pos <= |toks| && end.pos <= |toks| && 1 <= l <= 3 && Reached(l + 1, toks, c, e, end) && Ends(l, toks, end)
    ensures Reached(l, toks, c, e, end)
  {
    hide ParseAtom, StartsAtom, SumName, ProductName;
  }

  /** From the level reached to any wider one. */
  lemma {:induction false} ClimbTo(l: nat, top: nat, toks: Toks, c: Cursor, e: Expr, end: Cursor)
    requires c.pos <= |toks| && end.pos <= |toks| && 1 <= l <= top <= 4 && Reached(top, toks, c, e, end) && Ends(l, toks, end)
    ensures Reached(l, toks, c, e, end)
    decreases top
  {
    hide Reached, StartsAtom, SumName, ProductName;
    if l < top {
      Climb(top - 1, toks, c, e, end);
      ClimbTo(l, top - 1, toks, c, e, end);
    }
  }

  lemma Opened(toks: Toks, c: Cursor, e: Expr, end: Cursor)
    requires c.pos <= |toks| && end.pos <= |toks| && c.depth + 1 <= MAX_EXPR_DEPTH
    requires Reached(1, toks, c.(depth := c.depth + 1), e, end.(depth := c.depth + 1)) && Ends(0, toks, end) && end.depth == c.depth
    ensures Reached(0, toks, c, e, end)
  {
    hide ParseProduct, StartsAtom, ProductName;
    assert SumLoop(toks, e, end.(depth := c.depth + 1)) == Ok(e, end.(depth := c.depth + 1));
  }

  lemma Closes(toks: Toks, c: Cursor)
    requires TokAt(toks, c) == Some(RParen)
    ensures Ends(0, toks, c)
  {
  }

  // --- first tokens ---

  lemma Spelled()
    ensures WordOf("arg") == ArgW && WordOf("lege") == LegeW && WordOf("verum") == Verum && WordOf("falsum") == Falsum
    ensures WordOf("ask") == AskW && WordOf("resolve") == ResolveW && WordOf("pure") == PureW && WordOf("leva") == Leva
    ensures WordOf("pone") == PoneW
  {
  }

  /** A printed expression is not empty and does not begin with a newline; where an argument is
      expected it begins as an argument does. */
  lemma {:induction false} Begins(l: nat, e: Expr)
    requires Expressible(e)
    ensures var p := Print(l, e); |p| > 0 && p[0] != Newline && (l >= 4 ==> StartsAtom(Some(p[0])))
    decreases e, 1
  {
    hide WordOf;
    Spelled();
    if l <= LevelOf(e) && e.App? {
      match ShapeOf(e)
      case SumS(_, p, _) => ArgumentsExpressible(e); Begins(1, p);
      case ProductS(_, p, _) => ArgumentsExpressible(e); Begins(2, p);
      case OtherS => Begins(3, e.f);
    }
  }

  lemma ArgumentsExpressible(e: Expr)
    requires Expressible(e)
    ensures !ShapeOf(e).OtherS? ==> Expressible(ShapeOf(e).a) && Expressible(ShapeOf(e).b)
  {
    hide WordOf;
    if !ShapeOf(e).OtherS? { assert Expressible(e.f); }
  }

  // --- parsing undoes printing ---

  /** What one look at a printed token finds. */
  lemma Looks(toks: Toks, c: Cursor, t: Tok)
    requires Reads(toks, c.pos, [t]) && t != Newline
    ensures TokAt(toks, c) == Some(t) && Peek(toks, c) == c
  {
    assert toks[c.pos + 0].t == [t][0];
  }

  lemma {:induction false} Parses(l: nat, toks: Toks, c: Cursor, e: Expr)
    requires Expressible(e) && l <= 4 && Reads(toks, c.pos, Print(l, e)) && c.depth + Nest(l, e) <= MAX_EXPR_DEPTH
    requires Ends(l, toks, After(c, Print(l, e)))
    ensures Reached(l, toks, c, e, After(c, Print(l, e)))
    decreases e, if l == 0 then 2 else 4
  {
    hide WordOf, Bare, NestBare, ShapeOf, Expressible, Reached, Ends;
    var end := After(c, Print(l, e));
    if l > LevelOf(e) {
      ParenParses(toks, c, e);
      ClimbTo(l, 4, toks, c, e, end);
    } else if l == 0 {
      var c1 := c.(depth := c.depth + 1);
      EndsAlike(toks, end, After(c1, Print(l, e)));
      BareParses(toks, c1, e, 0);
      ClimbTo(1, if LevelOf(e) == 0 then 4 else LevelOf(e), toks, c1, e, After(c1, Bare(e)));
      Opened(toks, c, e, end);
    } else {
      BareParses(toks, c, e, l);
      ClimbTo(l, LevelOf(e), toks, c, e, end);
    }
  }

  lemma EndsAlike(toks: Toks, c1: Cursor, c2: Cursor)
    requires c1.pos == c2.pos && c1.parens == c2.parens
    ensures forall l: nat :: Ends(l, toks, c1) ==> Ends(l, toks, c2)
    ensures forall l: nat, k: nat :: Ends(l, toks, c1) && l <= k ==> Ends(k, toks, c1)
  {
    hide StartsAtom, ProductName, SumName;
  }

  lemma {:induction false} ParenParses(toks: Toks, c: Cursor, e: Expr)
    requires Expressible(e) && Reads(toks, c.pos, [LParen] + Print(0, e) + [RParen]) && c.depth + Nest(0, e) <= MAX_EXPR_DEPTH
    ensures Reached(4, toks, c, e, After(c, [LParen] + Print(0, e) + [RParen]))
    decreases e, 3
  {
    hide WordOf, Print, Nest, ParseExpr, Expressible, StartsAtom;
    var ts := Print(0, e);
    ReadsParts(toks, c.pos, [LParen] + ts, [RParen]);
    ReadsParts(toks, c.pos, [LParen], ts);
    Looks(toks, c, LParen);
    var c1 := Past(c).(parens := c.parens + 1);
    var end := After(c1, ts);
    Looks(toks, end, RParen);
    Looks(toks, end.(parens := c.parens), RParen);
    Closes(toks, end);
    Parses(0, toks, c1, e);
    assert ParseExpr(toks, c1) == Ok(e, end);
    var close := end.(parens := c.parens);
    assert Expect(toks, close, RParen, WantClose) == Ok((), Past(close));
    assert ParseParens(toks, Past(c)) == Ok(e, Past(close));
    assert Past(close) == After(c, [LParen] + ts + [RParen]);
  }

  /** The unparenthesised form, read by the parser of the expression's own level; a function
      body has no end of its own, so what follows it must be one. */
  lemma {:induction false} BareParses(toks: Toks, c: Cursor, e: Expr, l: nat)
    requires Expressible(e) && l <= LevelOf(e) && Reads(toks, c.pos, Bare(e)) && c.depth + NestBare(e) <= MAX_EXPR_DEPTH
    requires Ends(l, toks, After(c, Bare(e)))
    ensures Reached(if LevelOf(e) == 0 then 4 else LevelOf(e), toks, c, e, After(c, Bare(e)))
    decreases e, 1
  {
    hide WordOf, Reached, Bare, NestBare, StartsAtom, ProductName, SumName;
    EndsAlike(toks, After(c, Bare(e)), After(c, Bare(e)));
    ArgumentsExpressible(e);
    match e
    case Lam(_, _) => LambdaParses(toks, c, e);
    case App(_, _) =>
      match ShapeOf(e) {
        case SumS(sign, p, q) => SumParses(toks, c, e, sign, p, q);
        case ProductS(sign, p, q) => ProductParses(toks, c, e, sign, p, q);
        case OtherS => AppParses(toks, c, e);
      }
    case Lit(_) | Arg | Lege | Ask(_) => LeafParses(toks, c, e);
    case Var(_) => VarParses(toks, c, e);
    case Resolve(_, _) | Pure(_, _) | Lift(_) | Pone(_) => PrefixParses(toks, c, e);
  }

  lemma {:induction false} LambdaParses(toks: Toks, c: Cursor, e: Expr)
    requires e.Lam? && Expressible(e) && Reads(toks, c.pos, Bare(e)) && c.depth + NestBare(e) <= MAX_EXPR_DEPTH
    requires Ends(0, toks, After(c, Bare(e)))
    ensures Reached(4, toks, c, e, After(c, Bare(e)))
    decreases e, 0
  {
    hide WordOf, Print, Nest, ParseExpr, StartsAtom, ProductName, SumName, Ends;
    var head, ts := [Lambda, Ident(e.x), Arrow], Print(0, e.body);
    ReadsParts(toks, c.pos, head, ts);
    ThreeRead(toks, c, Lambda, Ident(e.x), Arrow);
    var c1 := After(c, head);
    assert After(c1, ts) == After(c, Bare(e));
    Parses(0, toks, c1, e.body);
    assert ParseLambda(toks, Past(c)) == Ok(e, After(c1, ts));
  }

  lemma ThreeRead(toks: Toks, c: Cursor, t0: Tok, t1: Tok, t2: Tok)
    requires Reads(toks, c.pos, [t0, t1, t2]) && t0 != Newline && t1 != Newline && t2 != Newline
    ensures TokAt(toks, c) == Some(t0) && Peek(toks, c) == c
    ensures TokAt(toks, Past(c)) == Some(t1) && Peek(toks, Past(c)) == Past(c)
    ensures TokAt(toks, Past(Past(c))) == Some(t2) && Peek(toks, Past(Past(c))) == Past(Past(c))
  {
    var ts := [t0, t1, t2];
    assert toks[c.pos + 0].t == ts[0] && toks[c.pos + 1].t == ts[1] && toks[c.pos + 2].t == ts[2];
  }

  lemma {:induction false} SumParses(toks: Toks, c: Cursor, e: Expr, sign: Tok, p: Expr, q: Expr)
    requires ShapeOf(e) == SumS(sign, p, q) && Expressible(p) && Expressible(q)
    requires Reads(toks, c.pos, Bare(e)) && c.depth + NestBare(e) <= MAX_EXPR_DEPTH && Ends(1, toks, After(c, Bare(e)))
    ensures Reached(1, toks, c, e, After(c, Bare(e)))
    decreases e, 0
  {
    hide WordOf, Print, Nest, ParseProduct, ParseSum, StartsAtom, ProductName, SumName;
    var left, right := Print(1, p), Print(2, q);
    ReadsParts(toks, c.pos, left + [sign], right);
    ReadsParts(toks, c.pos, left, [sign]);
    var mid := After(c, left);
    SignLooks(toks, mid, sign);
    Parses(1, toks, c, p);
    Parses(2, toks, Past(mid), q);
    var end := After(Past(mid), right);
    assert end == After(c, Bare(e));
    assert ProductLoop(toks, q, end) == Ok(q, end);
    assert SumLoop(toks, p, mid) == SumLoop(toks, e, end);
  }

  lemma SignLooks(toks: Toks, c: Cursor, t: Tok)
    requires Reads(toks, c.pos, [t]) && (SumName(Some(t)).Some? || ProductName(Some(t)).Some?)
    ensures TokAt(toks, c) == Some(t) && Peek(toks, c) == c && Ends(2, toks, c)
    ensures SumName(Some(t)).Some? ==> Ends(1, toks, c)
  {
    Looks(toks, c, t);
  }

  lemma {:induction false} ProductParses(toks: Toks, c: Cursor, e: Expr, sign: Tok, p: Expr, q: Expr)
    requires ShapeOf(e) == ProductS(sign, p, q) && Expressible(p) && Expressible(q)
    requires Reads(toks, c.pos, Bare(e)) && c.depth + NestBare(e) <= MAX_EXPR_DEPTH && Ends(2, toks, After(c, Bare(e)))
    ensures Reached(2, toks, c, e, After(c, Bare(e)))
    decreases e, 0
  {
    hide WordOf, Print, Nest, ParseProduct, ParseApplication, StartsAtom, ProductName, SumName;
    var left, right := Print(2, p), Print(3, q);
    ReadsParts(toks, c.pos, left + [sign], right);
    ReadsParts(toks, c.pos, left, [sign]);
    var mid := After(c, left);
    SignLooks(toks, mid, sign);
    Parses(2, toks, c, p);
    Parses(3, toks, Past(mid), q);
    var end := After(Past(mid), right);
    assert end == After(c, Bare(e));
    assert AppLoop(toks, q, end) == Ok(q, end);
    assert ProductLoop(toks, p, mid) == ProductLoop(toks, e, end);
  }

  lemma {:induction false} AppParses(toks: Toks, c: Cursor, e: Expr)
    requires e.App? && ShapeOf(e).OtherS? && Expressible(e)
    requires Reads(toks, c.pos, Bare(e)) && c.depth + NestBare(e) <= MAX_EXPR_DEPTH
    ensures Reached(3, toks, c, e, After(c, Bare(e)))
    decreases e, 0
  {
    hide WordOf, Print, Nest, ParseAtom, ParseApplication, StartsAtom, ProductName, SumName, ShapeOf;
    var left, right := Print(3, e.f), Print(4, e.a);
    ReadsParts(toks, c.pos, left, right);
    var mid := After(c, left);
    Begins(4, e.a);
    assert right == [right[0]] + right[1..];
    ReadsParts(toks, mid.pos, [right[0]], right[1..]);
    Looks(toks, mid, right[0]);
    Parses(3, toks, c, e.f);
    Parses(4, toks, mid, e.a);
    var end := After(mid, right);
    assert end == After(c, Bare(e));
    assert AppLoop(toks, e.f, mid) == AppLoop(toks, e, end);
  }

  lemma WordRead(toks: Toks, c: Cursor, x: string)
    requires Reads(toks, c.pos, [Ident(x)])
    ensures ParseAtom(toks, c) == ParseWord(toks, x, Past(c))
  {
    hide ParseWord, ParseParens, ParseLambda;
    Looks(toks, c, Ident(x));
  }

  lemma LeafParses(toks: Toks, c: Cursor, e: Expr)
    requires (e.Lit? || e.Arg? || e.Lege? || e.Ask?) && Expressible(e) && Reads(toks, c.pos, Bare(e))
    ensures Reached(4, toks, c, e, After(c, Bare(e)))
  {
    hide WordOf, StartsAtom, ParseAtom;
    Spelled();
    if e.Ask? {
      assert Bare(e) == [Ident("ask")] + [Tok.Str(e.x)];
      ReadsParts(toks, c.pos, [Ident("ask")], [Tok.Str(e.x)]);
      Looks(toks, Past(c), Tok.Str(e.x));
      WordRead(toks, c, "ask");
    } else if e.Arg? || e.Lege? || e.v.Bool? {
      WordRead(toks, c, Bare(e)[0].s);
    } else {
      LiteralParses(toks, c, e);
    }
  }

  lemma LiteralParses(toks: Toks, c: Cursor, e: Expr)
    requires e.Lit? && (e.v.Num? || e.v.Str?) && Reads(toks, c.pos, [LitTok(e.v)])
    ensures ParseAtom(toks, c) == Ok(e, Past(c))
  {
    Looks(toks, c, LitTok(e.v));
  }

  lemma VarParses(toks: Toks, c: Cursor, e: Expr)
    requires e.Var? && Expressible(e) && Reads(toks, c.pos, Bare(e))
    ensures Reached(LevelOf(e), toks, c, e, After(c, Bare(e)))
  {
    hide WordOf, StartsAtom;
    Looks(toks, c, Ident(e.x));
    assert ParseAtom(toks, c) == Ok(e, Past(c));
    if LevelOf(e) == 3 { EndsAlike(toks, Past(c), Past(c)); assert Ends(3, toks, Past(c)); Climb(3, toks, c, e, Past(c)); }
  }

  lemma {:induction false} PrefixParses(toks: Toks, c: Cursor, e: Expr)
    requires (e.Resolve? || e.Pure? || e.Lift? || e.Pone?) && Expressible(e)
    requires Reads(toks, c.pos, Bare(e)) && c.depth + NestBare(e) <= MAX_EXPR_DEPTH
    ensures Reached(LevelOf(e), toks, c, e, After(c, Bare(e)))
    decreases e, 0
  {
    hide WordOf, Print, Nest, StartsAtom, ParseAtom;
    if e.Resolve? {
      var head := [Ident("resolve"), Tok.Str(e.x)];
      assert Bare(e) == head + Print(4, e.g);
      ReadsParts(toks, c.pos, head, Print(4, e.g));
      assert head == [Ident("resolve")] + [Tok.Str(e.x)];
      ReadsParts(toks, c.pos, [Ident("resolve")], [Tok.Str(e.x)]);
      Looks(toks, Past(c), Tok.Str(e.x));
      Parses(4, toks, After(c, head), e.g);
      ResolveWord(toks, c, e.x, e.g, After(c, Bare(e)));
    } else {
      var w := if e.Pure? then "pure" else if e.Lift? then "leva" else "pone";
      assert Bare(e) == [Ident(w)] + Print(4, e.m);
      ReadsParts(toks, c.pos, [Ident(w)], Print(4, e.m));
      Parses(4, toks, Past(c), e.m);
      PrefixWord(toks, c, e, After(c, Bare(e)));
      if e.Pone? { Climb(3, toks, c, e, After(c, Bare(e))); }
    }
  }

  lemma ResolveWord(toks: Toks, c: Cursor, x: string, g: Expr, end: Cursor)
    requires Reads(toks, c.pos, [Ident("resolve")]) && end.pos <= |toks| && NameArg(toks, Past(c)) == Ok(x, Past(Past(c)))
    requires Past(Past(c)).pos <= |toks| && ParseAtom(toks, Past(Past(c))) == Ok(g, end)
    ensures ParseAtom(toks, c) == Ok(Resolve(x, g), end)
  {
    hide WordOf, NameArg, ParseAtom;
    Spelled();
    WordRead(toks, c, "resolve");
  }

  lemma PrefixWord(toks: Toks, c: Cursor, e: Expr, end: Cursor)
    requires (e.Pure? && e.mode.Dorian?) || e.Lift? || e.Pone?
    requires Reads(toks, c.pos, [Ident(if e.Pure? then "pure" else if e.Lift? then "leva" else "pone")])
    requires end.pos <= |toks| && ParseAtom(toks, Past(c)) == Ok(e.m, end)
    ensures ParseAtom(toks, c) == Ok(e, end)
  {
    hide WordOf, NameArg, ParseAtom;
    Spelled();
    var w := if e.Pure? then "pure" else if e.Lift? then "leva" else "pone";
    WordRead(toks, c, w);
  }

  /** Parsing the printed form gives the expression back, has consumed exactly its tokens and has
      restored both depths. */
  lemma PrintedParses(toks: Toks, c: Cursor, e: Expr)
    requires Expressible(e) && Reads(toks, c.pos, Print(0, e)) && c.depth + Nest(0, e) <= MAX_EXPR_DEPTH
    requires Ends(0, toks, After(c, Print(0, e)))
    ensures ParseExpr(toks, c) == Ok(e, Cursor(c.pos + |Print(0, e)|, c.parens, c.depth))
  {
    hide Print, Nest, Expressible, Ends, ParseExpr;
    Parses(0, toks, c, e);
  }

  /** The same where the printed form has been closed up to stand anywhere. */
  lemma TightParses(toks: Toks, c: Cursor, e: Expr)
    requires Expressible(e) && Reads(toks, c.pos, Print(4, e)) && c.depth + 1 + Nest(4, e) <= MAX_EXPR_DEPTH
    requires Ends(0, toks, After(c, Print(4, e)))
    ensures ParseExpr(toks, c) == Ok(e, After(c, Print(4, e)))
  {
    hide Print, Nest, Expressible, Ends, ParseExpr, ParseSum, ParseAtom;
    var c1, end := c.(depth := c.depth + 1), After(c, Print(4, e));
    EndsAlike(toks, end, After(c1, Print(4, e)));
    Parses(4, toks, c1, e);
    ClimbTo(1, 4, toks, c1, e, After(c1, Print(4, e)));
    Opened(toks, c, e, end);
  }

  // --- nothing else parses ---

  /** Whatever the expression parser returns has a printed form. */
  lemma {:induction false} ParsedIsExpressible(toks: Toks, c: Cursor)
    requires c.pos <= |toks|
    ensures ParseExpr(toks, c).Ok? ==> Expressible(ParseExpr(toks, c).val)
    decreases |toks| - c.pos, 6
  {
    hide ParseSum, Expressible;
    if c.depth + 1 <= MAX_EXPR_DEPTH { SumIsExpressible(toks, c.(depth := c.depth + 1)); }
  }

  lemma {:induction false} SumIsExpressible(toks: Toks, c: Cursor)
    requires c.pos <= |toks|
    ensures ParseSum(toks, c).Ok? ==> Expressible(ParseSum(toks, c).val)
    decreases |toks| - c.pos, 5
  {
    hide ParseProduct, SumLoop, Expressible;
    ProductIsExpressible(toks, c);
    var r := ParseProduct(toks, c);
    if r.Ok? { SumLoopExpressible(toks, r.val, r.at); }
  }

  lemma CallExpressible(t: Option<Tok>, a: Expr, b: Expr)
    requires Expressible(a) && Expressible(b)
    ensures SumName(t).Some? ==> Expressible(Call2(SumName(t).value, a, b))
    ensures ProductName(t).Some? ==> Expressible(Call2(ProductName(t).value, a, b))
  {
    hide WordOf;
    SignsAreNames();
    var n := if SumName(t).Some? then SumName(t) else ProductName(t);
    if n.Some? {
      assert Expressible(Var(n.value));
      assert Expressible(App(Var(n.value), a));
    }
  }

  lemma SignsAreNames()
    ensures WordOf("add") == Name && WordOf("sub") == Name && WordOf("mul") == Name && WordOf("div") == Name
  {
  }

  lemma {:induction false} SumLoopExpressible(toks: Toks, lhs: Expr, c: Cursor)
    requires c.pos <= |toks| && Expressible(lhs)
    ensures SumLoop(toks, lhs, c).Ok? ==> Expressible(SumLoop(toks, lhs, c).val)
    decreases |toks| - c.pos, 0
  {
    hide ParseProduct, Expressible, SumName;
    var p := Peek(toks, c);
    if SumName(TokAt(toks, p)).Some? && p.pos < |toks| {
      var r := ParseProduct(toks, Past(p));
      ProductIsExpressible(toks, Past(p));
      if r.Ok? {
        CallExpressible(TokAt(toks, p), lhs, r.val);
        SumLoopExpressible(toks, Call2(SumName(TokAt(toks, p)).value, lhs, r.val), r.at);
      }
    }
  }

  lemma {:induction false} ProductIsExpressible(toks: Toks, c: Cursor)
    requires c.pos <= |toks|
    ensures ParseProduct(toks, c).Ok? ==> Expressible(ParseProduct(toks, c).val)
    decreases |toks| - c.pos, 4
  {
    hide ParseApplication, ProductLoop, Expressible;
    AppIsExpressible(toks, c);
    var r := ParseApplication(toks, c);
    if r.Ok? { ProductLoopExpressible(toks, r.val, r.at); }
  }

  lemma {:induction false} ProductLoopExpressible(toks: Toks, lhs: Expr, c: Cursor)
    requires c.pos <= |toks| && Expressible(lhs)
    ensures ProductLoop(toks, lhs, c).Ok? ==> Expressible(ProductLoop(toks, lhs, c).val)
    decreases |toks| - c.pos, 0
  {
    hide ParseApplication, Expressible, ProductName;
    var p := Peek(toks, c);
    if ProductName(TokAt(toks, p)).Some? && p.pos < |toks| {
      var r := ParseApplication(toks, Past(p));
      AppIsExpressible(toks, Past(p));
      if r.Ok? {
        CallExpressible(TokAt(toks, p), lhs, r.val);
        ProductLoopExpressible(toks, Call2(ProductName(TokAt(toks, p)).value, lhs, r.val), r.at);
      }
    }
  }

  lemma {:induction false} AppIsExpressible(toks: Toks, c: Cursor)
    requires c.pos <= |toks|
    ensures ParseApplication(toks, c).Ok? ==> Expressible(ParseApplication(toks, c).val)
    decreases |toks| - c.pos, 3
  {
    hide ParseAtom, AppLoop, Expressible;
    AtomIsExpressible(toks, c);
    var r := ParseAtom(toks, c);
    if r.Ok? { AppLoopExpressible(toks, r.val, r.at); }
  }

  lemma {:induction false} AppLoopExpressible(toks: Toks, f: Expr, c: Cursor)
    requires c.pos <= |toks| && Expressible(f)
    ensures AppLoop(toks, f, c).Ok? ==> Expressible(AppLoop(toks, f, c).val)
    decreases |toks| - c.pos, 2
  {
    hide ParseAtom, StartsAtom, WordOf;
    var p := Peek(toks, c);
    if StartsAtom(TokAt(toks, p)) {
      var r := ParseAtom(toks, p);
      AtomIsExpressible(toks, p);
      if r.Ok? { AppLoopExpressible(toks, App(f, r.val), r.at); }
    }
  }

  lemma {:induction false} AtomIsExpressible(toks: Toks, c: Cursor)
    requires c.pos <= |toks|
    ensures ParseAtom(toks, c).Ok? ==> Expressible(ParseAtom(toks, c).val)
    decreases |toks| - c.pos, 1
  {
    hide ParseExpr, WordOf, ParseWord;
    var p := Peek(toks, c);
    match TokAt(toks, p)
    case Some(LParen) => ParsedIsExpressible(toks, Past(p).(parens := p.parens + 1));
    case Some(Lambda) => LambdaIsExpressible(toks, Past(p));
    case Some(Minus) =>
      AtomIsExpressible(toks, Past(p));
      var r := ParseAtom(toks, Past(p));
      if r.Ok? { CallExpressible(Some(Minus), Lit(Value.Num(ZERO)), r.val); }
    case Some(Ident(s)) => WordIsExpressible(toks, s, Past(p));
    case _ =>
  }

  lemma {:induction false} LambdaIsExpressible(toks: Toks, c: Cursor)
    requires c.pos <= |toks|
    ensures ParseLambda(toks, c).Ok? ==> Expressible(ParseLambda(toks, c).val)
    decreases |toks| - c.pos, 0
  {
    hide ParseExpr;
    var r1 := Identifier(toks, c, WantParam);
    if r1.Ok? {
      var r2 := Expect(toks, r1.at, Arrow, WantArrow);
      if r2.Ok? { ParsedIsExpressible(toks, r2.at); }
    }
  }

  lemma {:induction false} WordIsExpressible(toks: Toks, s: string, c: Cursor)
    requires c.pos <= |toks|
    ensures ParseWord(toks, s, c).Ok? ==> Expressible(ParseWord(toks, s, c).val)
    decreases |toks| - c.pos, 2
  {
    hide ParseAtom, WordOf;
    match WordOf(s)
    case ResolveW =>
      var r := NameArg(toks, c);
      if r.Ok? { AtomIsExpressible(toks, r.at); }
    case PureW | Leva | PoneW => AtomIsExpressible(toks, c);
    case _ =>
  }
}
