/** The plain form's grammar: recursive descent over tokens as functions of a cursor
    (parser.rs). Inside parentheses newlines are white space. */
module Grammar {
  import opened Core

  // --- tokens ---

  datatype Tok =
    | Ident(s: string) | Num(n: Scalar) | Str(s: string)
    | LBrace | RBrace | LParen | RParen | Eq | At | Arrow | BindArrow | Lambda
    | Plus | Minus | Star | Slash | Semi | Newline

  datatype Lexeme = Lexeme(t: Tok, line: nat)

  type Toks = seq<Lexeme>

  /** What the parser makes of an identifier. */
  datatype Word =
    | Tunc | Aliter | Amen | NihilW | ClamaW | PerageW | Si | PoneW | MitteW | Fuga | VersusW | In
    | Pedale | Subiectum | Reale | Tonale | Contra
    | ArgW | LegeW | Verum | Falsum | AskW | ResolveW | PureW | Leva
    | Name

  function WordOf(s: string): Word {
    match s
    case "tunc" => Tunc
    case "aliter" => Aliter
    case "amen" => Amen
    case "nihil" => NihilW
    case "clama" => ClamaW
    case "perage" => PerageW
    case "si" => Si
    case "pone" => PoneW
    case "mitte" => MitteW
    case "fuga" => Fuga
    case "versus" => VersusW
    case "in" => In
    case "pedale" => Pedale
    case "subiectum" => Subiectum
    case "reale" => Reale
    case "tonale" => Tonale
    case "contra" => Contra
    case "arg" => ArgW
    case "lege" => LegeW
    case "verum" => Verum
    case "falsum" => Falsum
    case "ask" => AskW
    case "resolve" => ResolveW
    case "pure" => PureW
    case "leva" => Leva
    case _ => Name
  }

  /** Keywords that end an application. */
  predicate EndsApplication(w: Word) {
    match w
    case ArgW | LegeW | Verum | Falsum | AskW | ResolveW | PureW | Leva | Name => false
    case _ => true
  }

  // --- cursors ---

  datatype Cursor = Cursor(pos: nat, parens: nat, depth: nat)

  datatype Gripe =
    | TooDeep | WantClose | WantParam | WantArrow | WantExpr | WantName
    | WantBrace | WantTunc | WantThen | WantAliter | WantElse | WantStatement | WantBindArrow
    | WantSemi | WantEightLines(n: nat) | WantCouplet | Unanswered(rhyme: char)

  datatype Parsed<+T> = Ok(val: T, at: Cursor) | Err(line: nat, what: Gripe)

  const MAX_EXPR_DEPTH: nat := 96

  /** The line an error is reported at: the token under the cursor, or the last one. */
  function LineAt(toks: Toks, pos: nat): nat {
    if pos < |toks| then toks[pos].line
    else if toks != [] then toks[|toks| - 1].line
    else 1
  }

  function Fail<T>(toks: Toks, c: Cursor, what: Gripe): Parsed<T> {
    Err(LineAt(toks, c.pos), what)
  }

  function PastNewlines(toks: Toks, pos: nat): (r: nat)
    requires pos <= |toks|
    ensures pos <= r <= |toks| && (r < |toks| ==> toks[r].t != Newline)
    decreases |toks| - pos
  {
    if pos < |toks| && toks[pos].t == Newline then PastNewlines(toks, pos + 1) else pos
  }

  /** Where a look at the next token leaves the cursor. */
  function Peek(toks: Toks, c: Cursor): (r: Cursor)
    requires c.pos <= |toks|
    ensures c.pos <= r.pos <= |toks| && r.parens == c.parens && r.depth == c.depth
  {
    if c.parens > 0 then c.(pos := PastNewlines(toks, c.pos)) else c
  }

  function TokAt(toks: Toks, c: Cursor): Option<Tok> {
    if c.pos < |toks| then Some(toks[c.pos].t) else None
  }

  /** One token further. */
  function Past(c: Cursor): Cursor {
    c.(pos := c.pos + 1)
  }

  function Expect(toks: Toks, c: Cursor, want: Tok, what: Gripe): (r: Parsed<()>)
    requires c.pos <= |toks|
    ensures r.Ok? ==> c.pos < r.at.pos <= |toks| && r.at.parens == c.parens && r.at.depth == c.depth
  {
    var p := Peek(toks, c);
    if TokAt(toks, p) == Some(want) then Ok((), Past(p)) else Fail(toks, p, what)
  }

  function Identifier(toks: Toks, c: Cursor, what: Gripe): (r: Parsed<string>)
    requires c.pos <= |toks|
    ensures r.Ok? ==> c.pos < r.at.pos <= |toks| && r.at.parens == c.parens && r.at.depth == c.depth
  {
    var p := Peek(toks, c);
    match TokAt(toks, p)
    case Some(Ident(s)) => Ok(s, Past(p))
    case Some(_) => Fail(toks, Past(p), what) // the offending token has been consumed
    case None => Fail(toks, p, what)
  }

  function NameArg(toks: Toks, c: Cursor): (r: Parsed<string>)
    requires c.pos <= |toks|
    ensures r.Ok? ==> c.pos < r.at.pos <= |toks| && r.at.parens == c.parens && r.at.depth == c.depth
  {
    var p := Peek(toks, c);
    match TokAt(toks, p)
    case Some(Ident(s)) => Ok(s, Past(p))
    case Some(Str(s)) => Ok(s, Past(p))
    case Some(_) => Fail(toks, Past(p), WantName)
    case None => Fail(toks, p, WantName)
  }

  // --- expressions ---

  function Call2(name: Sym, a: Expr, b: Expr): Expr {
    App(App(Var(name), a), b)
  }

  predicate StartsAtom(t: Option<Tok>) {
    match t
    case Some(Num(_)) => true
    case Some(Str(_)) => true
    case Some(LParen) => true
    case Some(Lambda) => true
    case Some(Ident(s)) => !EndsApplication(WordOf(s))
    case _ => false
  }

  /** The builtin a sign stands for. */
  function SumName(t: Option<Tok>): Option<Sym> {
    match t
    case Some(Plus) => Some("add")
    case Some(Minus) => Some("sub")
    case _ => None
  }

  function ProductName(t: Option<Tok>): Option<Sym> {
    match t
    case Some(Star) => Some("mul")
    case Some(Slash) => Some("div")
    case _ => None
  }

  /** Parsing moves forward and restores both depths. */
  predicate Moves(toks: Toks, c: Cursor, r: Parsed<Expr>) {
    r.Ok? ==> c.pos < r.at.pos <= |toks| && r.at.parens == c.parens && r.at.depth == c.depth
  }

  predicate Stays(toks: Toks, c: Cursor, r: Parsed<Expr>) {
    r.Ok? ==> c.pos <= r.at.pos <= |toks| && r.at.parens == c.parens && r.at.depth == c.depth
  }

  function ParseExpr(toks: Toks, c: Cursor): (r: Parsed<Expr>)
    requires c.pos <= |toks|
    ensures Moves(toks, c, r)
    decreases |toks| - c.pos, 6
  {
    if c.depth + 1 > MAX_EXPR_DEPTH then Fail(toks, c, TooDeep)
    else match ParseSum(toks, c.(depth := c.depth + 1))
      case Ok(e, c') => Ok(e, c'.(depth := c'.depth - 1))
      case Err(l, w) => Err(l, w)
  }

  function ParseSum(toks: Toks, c: Cursor): (r: Parsed<Expr>)
    requires c.pos <= |toks|
    ensures Moves(toks, c, r)
    decreases |toks| - c.pos, 5
  {
    match ParseProduct(toks, c)
    case Ok(e, c') => SumLoop(toks, e, c')
    case Err(l, w) => Err(l, w)
  }

  function SumLoop(toks: Toks, lhs: Expr, c: Cursor): (r: Parsed<Expr>)
    requires c.pos <= |toks|
    ensures Stays(toks, c, r)
    decreases |toks| - c.pos, 0
  {
    var p := Peek(toks, c);
    match SumName(TokAt(toks, p))
    case None => Ok(lhs, p)
    case Some(op) =>
      match ParseProduct(toks, Past(p))
      case Ok(rhs, c') => SumLoop(toks, Call2(op, lhs, rhs), c')
      case Err(l, w) => Err(l, w)
  }

  function ParseProduct(toks: Toks, c: Cursor): (r: Parsed<Expr>)
    requires c.pos <= |toks|
    ensures Moves(toks, c, r)
    decreases |toks| - c.pos, 4
  {
    match ParseApplication(toks, c)
    case Ok(e, c') => ProductLoop(toks, e, c')
    case Err(l, w) => Err(l, w)
  }

  function ProductLoop(toks: Toks, lhs: Expr, c: Cursor): (r: Parsed<Expr>)
    requires c.pos <= |toks|
    ensures Stays(toks, c, r)
    decreases |toks| - c.pos, 0
  {
    var p := Peek(toks, c);
    match ProductName(TokAt(toks, p))
    case None => Ok(lhs, p)
    case Some(op) =>
      match ParseApplication(toks, Past(p))
      case Ok(rhs, c') => ProductLoop(toks, Call2(op, lhs, rhs), c')
      case Err(l, w) => Err(l, w)
  }

  function ParseApplication(toks: Toks, c: Cursor): (r: Parsed<Expr>)
    requires c.pos <= |toks|
    ensures Moves(toks, c, r)
    decreases |toks| - c.pos, 3
  {
    match ParseAtom(toks, c)
    case Ok(e, c') => AppLoop(toks, e, c')
    case Err(l, w) => Err(l, w)
  }

  function AppLoop(toks: Toks, f: Expr, c: Cursor): (r: Parsed<Expr>)
    requires c.pos <= |toks|
    ensures Stays(toks, c, r)
    decreases |toks| - c.pos, 2
  {
    var p := Peek(toks, c);
    if !StartsAtom(TokAt(toks, p)) then Ok(f, p)
    else match ParseAtom(toks, p)
      case Ok(a, c') => AppLoop(toks, App(f, a), c')
      case Err(l, w) => Err(l, w)
  }

  function ParseAtom(toks: Toks, c: Cursor): (r: Parsed<Expr>)
    requires c.pos <= |toks|
    ensures Moves(toks, c, r)
    decreases |toks| - c.pos, 1
  {
    var p := Peek(toks, c);
    match TokAt(toks, p)
    case Some(Num(n)) => Ok(Lit(Value.Num(n)), Past(p))
    case Some(Str(s)) => Ok(Lit(Value.Str(s)), Past(p))
    case Some(LParen) => ParseParens(toks, Past(p))
    case Some(Lambda) => ParseLambda(toks, Past(p))
    case Some(Minus) =>
      (match ParseAtom(toks, Past(p))
       case Ok(e, c') => Ok(Call2("sub", Lit(Value.Num(ZERO)), e), c')
       case Err(l, w) => Err(l, w))
    case Some(Ident(s)) => ParseWord(toks, s, Past(p))
    case _ => Fail(toks, p, WantExpr)
  }

  /** The bits of `0.0`. */
  const ZERO: Scalar := F64(0)

  function ParseParens(toks: Toks, c: Cursor): (r: Parsed<Expr>)
    requires c.pos <= |toks|
    ensures Moves(toks, c, r)
    decreases |toks| - c.pos, 7
  {
    match ParseExpr(toks, c.(parens := c.parens + 1))
    case Err(l, w) => Err(l, w)
    case Ok(e, c1) =>
      match Expect(toks, c1.(parens := c1.parens - 1), RParen, WantClose)
      case Ok(_, c2) => Ok(e, c2)
      case Err(l, w) => Err(l, w)
  }

  function ParseLambda(toks: Toks, c: Cursor): (r: Parsed<Expr>)
    requires c.pos <= |toks|
    ensures Moves(toks, c, r)
    decreases |toks| - c.pos, 0
  {
    match Identifier(toks, c, WantParam)
    case Err(l, w) => Err(l, w)
    case Ok(x, c1) =>
      match Expect(toks, c1, Arrow, WantArrow)
      case Err(l, w) => Err(l, w)
      case Ok(_, c2) =>
        match ParseExpr(toks, c2)
        case Ok(b, c3) => Ok(Lam(x, b), c3)
        case Err(l, w) => Err(l, w)
  }

  /** An identifier just consumed, and the operand its word asks for. */
  function ParseWord(toks: Toks, s: string, c: Cursor): (r: Parsed<Expr>)
    requires c.pos <= |toks|
    ensures Stays(toks, c, r)
    decreases |toks| - c.pos, 2
  {
    match WordOf(s)
    case ArgW => Ok(Arg, c)
    case LegeW => Ok(Lege, c)
    case Verum => Ok(Lit(Bool(true)), c)
    case Falsum => Ok(Lit(Bool(false)), c)
    case AskW =>
      (match NameArg(toks, c)
       case Ok(x, c1) => Ok(Ask(x), c1)
       case Err(l, w) => Err(l, w))
    case ResolveW =>
      (match NameArg(toks, c)
       case Err(l, w) => Err(l, w)
       case Ok(x, c1) =>
         match ParseAtom(toks, c1)
         case Ok(g, c2) => Ok(Resolve(x, g), c2)
         case Err(l, w) => Err(l, w))
    case PureW =>
      (match ParseAtom(toks, c)
       case Ok(m, c1) => Ok(Pure(Dorian, m), c1)
       case Err(l, w) => Err(l, w))
    case Leva =>
      (match ParseAtom(toks, c)
       case Ok(m, c1) => Ok(Lift(m), c1)
       case Err(l, w) => Err(l, w))
    case PoneW =>
      (match ParseAtom(toks, c)
       case Ok(m, c1) => Ok(Pone(m), c1)
       case Err(l, w) => Err(l, w))
    case _ => Ok(Var(s), c)
  }
}
