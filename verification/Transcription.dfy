/** Transcription: a played phrase becomes a score, the inverse of rendering (transcribe.rs). */
module Transcription {
  import opened Core
  import opened Grammar
  import P = Printing
  import S = Score
  import opened Degrees
  import R = Organ

  datatype Fault = Silence | OutsideModes | NoDegree(pitch: int) | NoCadence | AfterAmen

  /** Errors carry the number of the note they are at. */
  datatype Heard<+T> = Took(val: T) | Refused(note: nat, fault: Fault)

  // --- names and literals ---

  function Digits(n: nat): (s: string)
    ensures |s| > 0 && '0' <= s[0] <= '9'
  {
    if n < 10 then [('0' as int + n) as char] else Digits(n / 10) + [('0' as int + n % 10) as char]
  }

  function VarName(n: nat): string {
    "v" + Digits(n)
  }

  /** The number a string of digits writes. */
  function Decimal(s: string): int {
    if s == "" then 0 else 10 * Decimal(s[..|s| - 1]) + (s[|s| - 1] as int - '0' as int)
  }

  /** A name is a `v` and its number in decimal digits, with none too many before them. */
  lemma {:induction false} NamesAreNumbered(n: nat)
    ensures VarName(n)[0] == 'v' && Decimal(VarName(n)[1..]) == n
    ensures forall i :: 1 <= i < |VarName(n)| ==> '0' <= VarName(n)[i] <= '9'
    ensures n > 0 ==> VarName(n)[1] != '0'
  {
    var d := Digits(n);
    assert VarName(n)[1..] == d && d[..|d|] == d;
    if n < 10 {
      assert d[..|d| - 1] == "" && Decimal("") == 0;
    } else {
      NamesAreNumbered(n / 10);
      assert VarName(n / 10)[1..] == Digits(n / 10) == d[..|d| - 1];
      assert forall i :: 1 <= i < |VarName(n)| - 1 ==> VarName(n)[i] == VarName(n / 10)[i];
    }
  }

  lemma NumberedIsName(s: string)
    requires |s| >= 2 && '0' <= s[1] <= '9'
    ensures WordOf(s).Name?
  {
  }

  lemma VarIsName(n: nat)
    ensures WordOf(VarName(n)).Name?
  {
    hide WordOf;
    NumberedIsName(VarName(n));
  }

  /** What an operation is sung on: the name bound last, and zero before any. */
  function PrevTok(prev: Option<string>): Tok {
    if prev.Some? then Ident(prev.value) else Tok.Num(ZERO)
  }

  function PrevExpr(prev: Option<string>): Expr {
    if prev.Some? then Var(prev.value) else Lit(Value.Num(ZERO))
  }

  // --- what each note writes ---

  /** The transcriber's state: its place in the phrase and what it has written so far. */
  datatype Pen = Pen(pos: nat, body: seq<Tok>, vars: nat, prev: Option<string>, needsFugue: bool)

  predicate KeepsModal(mode: Mode) {
    mode.Lydian? || mode.Hypolydian? || mode.Hypomixolydian?
  }

  /** The right-hand side of the line a note binds. */
  function BoundToks(op: RenderOp, prev: Option<string>): seq<Tok> {
    match op
    case ArgOp => [Ident("arg")]
    case AskOp => [Ident("ask"), Tok.Str("Dominus")]
    case PureOp => [Ident("pure"), PrevTok(prev)]
    case ResolveOp =>
      [Ident("resolve"), Tok.Str("vox"), LParen, Ident("genus"), LParen, Ident("corpus"),
       Tok.Num(ZERO), Tok.Str("cantus"), Tok.Num(ZERO), Tok.Num(ZERO), RParen, RParen]
    case _ => [PrevTok(prev)]
  }

  function BoundExpr(op: RenderOp, prev: Option<string>): Expr {
    match op
    case ArgOp => Arg
    case AskOp => Ask("Dominus")
    case PureOp => Pure(Dorian, PrevExpr(prev))
    case ResolveOp => Resolve("vox", App(Var("genus"), CANTUS))
    case _ => PrevExpr(prev)
  }

  const CANTUS: Expr :=
    App(App(App(App(Var("corpus"), Lit(Value.Num(ZERO))), Lit(Value.Str("cantus"))), Lit(Value.Num(ZERO))), Lit(Value.Num(ZERO)))

  /** A modal note in a mode that has a line for it; elsewhere it is a plain bind. */
  predicate Effectful(mode: Mode, op: RenderOp) {
    op.Modal? && KeepsModal(mode)
  }

  function EffectToks(mode: Mode, prev: Option<string>): seq<Tok> {
    if mode.Hypomixolydian? then [Ident("mitte"), LParen, Ident("cmd"), PrevTok(prev), PrevTok(prev), PrevTok(prev), RParen]
    else [Ident("pone"), PrevTok(prev)]
  }

  function EffectExpr(mode: Mode, prev: Option<string>): Expr {
    var p := PrevExpr(prev);
    if mode.Hypomixolydian? then Mitte(App(App(App(Var("cmd"), p), p), p)) else Pone(p)
  }

  /** One note that is neither a cadence nor a branch. */
  function Write(mode: Mode, op: RenderOp, p: Pen): Pen {
    var fugue := p.needsFugue || op.AskOp? || op.ResolveOp?;
    if Effectful(mode, op) then Pen(p.pos + 1, p.body + EffectToks(mode, p.prev) + [Newline], p.vars, p.prev, fugue)
    else
      var v := VarName(p.vars + 1);
      Pen(p.pos + 1, p.body + [Ident(v), BindArrow] + BoundToks(op, p.prev) + [Newline], p.vars + 1, Some(v), fugue)
  }

  function Put(p: Pen, ts: seq<Tok>): Pen {
    p.(body := p.body + ts)
  }

  const OPEN_ARM: seq<Tok> := [Ident("si"), Ident("verum"), Ident("tunc"), LBrace, Newline]
  const NEXT_ARM: seq<Tok> := [RBrace, Ident("aliter"), LBrace, Newline]
  const CLOSE_ARM: seq<Tok> := [RBrace, Newline]

  function Amens(prev: Option<string>): seq<Tok> {
    [Ident("amen"), PrevTok(prev), Newline]
  }

  /** One block: statements until a cadence, or a branch with a cadence in each of its arms. */
  function Block(ops: seq<RenderOp>, mode: Mode, p: Pen): (r: Heard<Pen>)
    requires p.pos <= |ops|
    ensures r.Took? ==> p.pos < r.val.pos <= |ops|
    decreases |ops| - p.pos
  {
    if p.pos == |ops| then Refused(p.pos + 1, NoCadence)
    else
      var op, p1 := ops[p.pos], p.(pos := p.pos + 1);
      if op.Cadence? then Took(Put(p1, Amens(p.prev)))
      else if op.Branch? then
        match Block(ops, mode, Put(p1, OPEN_ARM))
        case Refused(n, f) => Refused(n, f)
        case Took(p2) =>
          match Block(ops, mode, Put(p2, NEXT_ARM)) // `prev` and the numbering run on from the first arm
          case Refused(n, f) => Refused(n, f)
          case Took(p3) => Took(Put(p3, CLOSE_ARM))
      else Block(ops, mode, Write(mode, op, p))
  }

  // --- the whole phrase ---

  function FinalOfPitch(p: nat): Option<Final> {
    match p % 12
    case 2 => Some(Re)
    case 4 => Some(Mi)
    case 5 => Some(Fa)
    case 7 => Some(Sol)
    case _ => None
  }

  predicate Dips(pitches: seq<nat>, cadence: nat) {
    exists i :: 0 <= i < |pitches| && pitches[i] < cadence
  }

  /** The first degree, from `d` on, with the offset. */
  function FindDegree(mode: Mode, rel: int, d: nat): (r: Option<nat>)
    requires 1 <= d <= 9
    ensures r.Some? ==> d <= r.value <= 8 && DegreeOffset(mode, r.value) == rel
    ensures r.None? ==> forall e :: d <= e <= 8 ==> DegreeOffset(mode, e) != rel
    decreases 9 - d
  {
    if d == 9 then None
    else if DegreeOffset(mode, d) == rel then Some(d)
    else FindDegree(mode, rel, d + 1)
  }

  function Interval(pitch: nat, cadence: nat): int {
    pitch - cadence
  }

  /** The operations of the notes from `i` on. */
  function OpsFrom(mode: Mode, pitches: seq<nat>, cadence: nat, i: nat): Heard<seq<RenderOp>>
    requires i <= |pitches|
    decreases |pitches| - i
  {
    if i == |pitches| then Took([])
    else match FindDegree(mode, Interval(pitches[i], cadence), 1)
      case None => Refused(i + 1, NoDegree(pitches[i]))
      case Some(d) =>
        match OpsFrom(mode, pitches, cadence, i + 1)
        case Took(ops) => Took([OpOfDegree(mode, d).value] + ops)
        case Refused(n, f) => Refused(n, f)
  }

  datatype Transcript = Transcript(mode: Mode, ops: seq<RenderOp>, body: seq<Tok>, needsFugue: bool)

  const BLANK: Pen := Pen(0, [], 0, None, false)

  function Transcribe(pitches: seq<nat>): Heard<Transcript> {
    if pitches == [] then Refused(0, Silence)
    else
      var cadence := pitches[|pitches| - 1];
      match FinalOfPitch(cadence)
      case None => Refused(|pitches|, OutsideModes)
      case Some(f) =>
        var mode := FromFinal(f, Dips(pitches, cadence));
        match OpsFrom(mode, pitches, cadence, 0)
        case Refused(n, g) => Refused(n, g)
        case Took(ops) =>
          match Block(ops, mode, BLANK)
          case Refused(n, g) => Refused(n, g)
          case Took(p) =>
            if p.pos != |ops| then Refused(p.pos + 1, AfterAmen)
            else Took(Transcript(mode, ops, p.body + [RBrace], p.needsFugue))
  }

  // --- what a block writes parses to a body that sings the block's notes ---

  /** A modal note in a mode with no line for it degrades to a plain bind. */
  function Degraded(mode: Mode, ops: seq<RenderOp>): (r: seq<RenderOp>)
    ensures |r| == |ops|
  {
    seq(|ops|, i requires 0 <= i < |ops| => if ops[i].Modal? && !KeepsModal(mode) then BindOther else ops[i])
  }

  predicate NameOk(prev: Option<string>) {
    prev.Some? ==> WordOf(prev.value).Name?
  }

  lemma PrevPrints(prev: Option<string>)
    requires NameOk(prev)
    ensures var e := PrevExpr(prev);
            && P.Expressible(e) && P.LevelOf(e) == 4 && P.NestBare(e) == 0 && P.Bare(e) == [PrevTok(prev)]
            && (forall l: nat :: l <= 4 ==> P.Print(l, e) == [PrevTok(prev)]) && R.Classify(e) == BindOther
  {
    hide WordOf;
  }

  /** The bound lines' texts are the printed forms of what they bind. */
  lemma BoundPrints(op: RenderOp, prev: Option<string>)
    requires NameOk(prev) && !op.Cadence? && !op.Branch?
    ensures var e := BoundExpr(op, prev);
            && P.Print(0, e) == BoundToks(op, prev) && S.Fits(0, e) && !e.Mitte? && !e.Pone?
            && R.Classify(e) == if op.Modal? then BindOther else op
  {
    hide WordOf;
    PrevPrints(prev);
    if op.ResolveOp? {
      VoxPrints();
      assert BoundExpr(op, prev) == BoundExpr(ResolveOp, None) && BoundToks(op, prev) == BoundToks(ResolveOp, None);
    } else if op.PureOp? {
      var e := BoundExpr(op, prev);
      assert P.Bare(e) == [Ident("pure")] + [PrevTok(prev)] && P.Print(0, e) == P.Bare(e);
      assert P.Nest(4, e.m) == 0 && P.Nest(0, e) == 1 && P.Expressible(e);
    }
  }

  lemma VoxPrints()
    ensures var e := BoundExpr(ResolveOp, None);
            P.Print(0, e) == BoundToks(ResolveOp, None) && S.Fits(0, e) && R.Classify(e) == ResolveOp
  {
    hide WordOf;
    CantusPrints();
    PlainNames();
    var g := App(Var("genus"), CANTUS);
    assert P.ShapeOf(g) == P.OtherS;
    assert P.Bare(g) == P.Print(3, Var("genus")) + P.Print(4, CANTUS);
    assert P.NestBare(g) == 1;
    assert P.Print(0, g) == P.Bare(g);
    assert P.Print(4, g) == [LParen] + P.Print(0, g) + [RParen];
    assert P.Nest(4, g) == 2;
    assert P.Expressible(g);
  }

  lemma PlainNames()
    ensures WordOf("genus").Name? && WordOf("corpus").Name? && WordOf("cmd").Name?
  {
  }

  lemma CantusPrints()
    ensures P.Expressible(CANTUS) && P.LevelOf(CANTUS) == 3 && P.NestBare(CANTUS) == 0
    ensures P.Bare(CANTUS) == [Ident("corpus"), Tok.Num(ZERO), Tok.Str("cantus"), Tok.Num(ZERO), Tok.Num(ZERO)]
    ensures P.Print(4, CANTUS) == [LParen] + P.Bare(CANTUS) + [RParen] && P.Nest(4, CANTUS) == 1
  {
    hide WordOf;
    PlainNames();
    var z, c := Lit(Value.Num(ZERO)), Lit(Value.Str("cantus"));
    var a1 := App(Var("corpus"), z);
    var a2 := App(a1, c);
    var a3 := App(a2, z);
    Applied(Var("corpus"), z);
    Applied(a1, c);
    Applied(a2, z);
    Applied(a3, z);
  }

  /** One more simple argument, to a head that is no sum or product. */
  lemma Applied(f: Expr, a: Expr)
    requires P.LevelOf(a) == 4 && P.LevelOf(f) >= 3 && P.Expressible(f) && P.Expressible(a)
    requires f.App? ==> f.f != Var("add") && f.f != Var("sub") && f.f != Var("mul") && f.f != Var("div")
    ensures var e := App(f, a);
            && P.Expressible(e) && P.LevelOf(e) == 3 && P.Bare(e) == P.Bare(f) + P.Bare(a)
            && P.NestBare(e) == P.Max(P.NestBare(f), P.NestBare(a))
  {
    hide WordOf;
    assert P.ShapeOf(App(f, a)) == P.OtherS;
  }

  /** So are the texts of the lines with a verb. */
  lemma EffectPrints(mode: Mode, prev: Option<string>)
    requires NameOk(prev) && KeepsModal(mode)
    ensures var m := EffectExpr(mode, prev);
            && (m.Pone? || m.Mitte?) && [Ident(S.Verb(m))] + P.Print(4, m.m) == EffectToks(mode, prev)
            && S.FitsTight(0, m.m) && R.Classify(m) == Modal
  {
    hide WordOf;
    PrevPrints(prev);
    if mode.Hypomixolydian? { CmdPrints(prev); }
  }

  lemma CmdPrints(prev: Option<string>)
    requires NameOk(prev)
    ensures var p := PrevExpr(prev);
            var e := App(App(App(Var("cmd"), p), p), p);
            && P.Expressible(e) && P.Nest(4, e) == 1
            && P.Print(4, e) == [LParen, Ident("cmd"), PrevTok(prev), PrevTok(prev), PrevTok(prev), RParen]
  {
    hide WordOf, PrevExpr;
    PrevPrints(prev);
    PlainNames();
    var p := PrevExpr(prev);
    var a1 := App(Var("cmd"), p);
    var a2 := App(a1, p);
    var a3 := App(a2, p);
    Applied(Var("cmd"), p);
    Applied(a1, p);
    Applied(a2, p);
    assert P.Bare(a3) == [Ident("cmd"), PrevTok(prev), PrevTok(prev), PrevTok(prev)];
    assert P.Print(4, a3) == [LParen] + P.Print(0, a3) + [RParen];
  }

  /** The body a block's writing parses to. */
  function BodyOf(ops: seq<RenderOp>, mode: Mode, p: Pen): Expr
    requires p.pos <= |ops| && Block(ops, mode, p).Took?
    decreases |ops| - p.pos
  {
    var op, p1 := ops[p.pos], p.(pos := p.pos + 1);
    if op.Cadence? then Return(mode, PrevExpr(p.prev))
    else if op.Branch? then
      var q1 := Put(p1, OPEN_ARM);
      If(Lit(Bool(true)), BodyOf(ops, mode, q1), BodyOf(ops, mode, Put(Block(ops, mode, q1).val, NEXT_ARM)))
    else
      var k := BodyOf(ops, mode, Write(mode, op, p));
      if Effectful(mode, op) then Bind(mode, EffectExpr(mode, p.prev), "_", k)
      else Bind(mode, BoundExpr(op, p.prev), VarName(p.vars + 1), k)
  }

  /** A block and the body its writing parses to. */
  ghost predicate Writes(ops: seq<RenderOp>, mode: Mode, p: Pen, p': Pen, e: Expr) {
    && p.pos < p'.pos <= |ops| && p.body <= p'.body && NameOk(p'.prev)
    && p'.body[|p.body|..] + [RBrace] == S.PrintStmts(e)
    && S.Writable(mode, 0, e)
    && R.Sung(e) == Degraded(mode, ops[p.pos..p'.pos])
  }

  lemma {:induction false} BlockWrites(ops: seq<RenderOp>, mode: Mode, p: Pen)
    requires p.pos <= |ops| && Block(ops, mode, p).Took? && NameOk(p.prev)
    ensures Writes(ops, mode, p, Block(ops, mode, p).val, BodyOf(ops, mode, p))
    decreases |ops| - p.pos, 1
  {
    hide WordOf, Writes, Write;
    var op, p1 := ops[p.pos], p.(pos := p.pos + 1);
    if op.Cadence? {
      AmenWrites(ops, mode, p);
    } else if op.Branch? {
      BranchWrites(ops, mode, p);
    } else {
      Advances(mode, op, p);
      BlockWrites(ops, mode, Write(mode, op, p));
      LineWrites(ops, mode, p, Block(ops, mode, p).val, BodyOf(ops, mode, Write(mode, op, p)));
    }
  }

  lemma Advances(mode: Mode, op: RenderOp, p: Pen)
    requires NameOk(p.prev)
    ensures Write(mode, op, p).pos == p.pos + 1 && NameOk(Write(mode, op, p).prev)
  {
    hide WordOf;
    VarIsName(p.vars + 1);
  }

  lemma AmenWrites(ops: seq<RenderOp>, mode: Mode, p: Pen)
    requires p.pos < |ops| && ops[p.pos].Cadence? && NameOk(p.prev)
    ensures Writes(ops, mode, p, Put(p.(pos := p.pos + 1), Amens(p.prev)), Return(mode, PrevExpr(p.prev)))
  {
    hide WordOf;
    PrevPrints(p.prev);
    var p' := Put(p.(pos := p.pos + 1), Amens(p.prev));
    assert p'.body[|p.body|..] == Amens(p.prev);
    assert p'.pos == p.pos + 1 && ops[p.pos..p.pos + 1] == [ops[p.pos]] == [Cadence];
  }

  lemma LineWrites(ops: seq<RenderOp>, mode: Mode, p: Pen, p': Pen, k: Expr)
    requires p.pos < |ops| && NameOk(p.prev) && Writes(ops, mode, Write(mode, ops[p.pos], p), p', k)
    requires !ops[p.pos].Cadence? && !ops[p.pos].Branch?
    ensures var op := ops[p.pos];
            Writes(ops, mode, p, p', if Effectful(mode, op) then Bind(mode, EffectExpr(mode, p.prev), "_", k)
                                     else Bind(mode, BoundExpr(op, p.prev), VarName(p.vars + 1), k))
  {
    hide Writes, Write, Effectful;
    if Effectful(mode, ops[p.pos]) { EffectWrites(ops, mode, p, p', k); } else { BoundWrites(ops, mode, p, p', k); }
  }

  lemma EffectWrites(ops: seq<RenderOp>, mode: Mode, p: Pen, p': Pen, k: Expr)
    requires p.pos < |ops| && NameOk(p.prev) && Writes(ops, mode, Write(mode, ops[p.pos], p), p', k)
    requires !ops[p.pos].Cadence? && !ops[p.pos].Branch? && Effectful(mode, ops[p.pos])
    ensures Writes(ops, mode, p, p', Bind(mode, EffectExpr(mode, p.prev), "_", k))
  {
    hide WordOf, BoundExpr, BoundToks, EffectExpr, EffectToks, VarName, P.Print, S.Fits, S.FitsTight, R.Classify, S.Verb, Degraded, S.PrintStmts;
    Grown(mode, ops[p.pos], p, p');
    LineOps(ops, mode, p.pos, p'.pos);
    EffectPrints(mode, p.prev);
    EffectLine(mode, p, Write(mode, ops[p.pos], p), p', k);
  }

  lemma BoundWrites(ops: seq<RenderOp>, mode: Mode, p: Pen, p': Pen, k: Expr)
    requires p.pos < |ops| && NameOk(p.prev) && Writes(ops, mode, Write(mode, ops[p.pos], p), p', k)
    requires !ops[p.pos].Cadence? && !ops[p.pos].Branch? && !Effectful(mode, ops[p.pos])
    ensures Writes(ops, mode, p, p', Bind(mode, BoundExpr(ops[p.pos], p.prev), VarName(p.vars + 1), k))
  {
    hide WordOf, BoundExpr, BoundToks, EffectExpr, EffectToks, VarName, P.Print, S.Fits, S.FitsTight, R.Classify, S.Verb, Degraded, S.PrintStmts;
    Grown(mode, ops[p.pos], p, p');
    LineOps(ops, mode, p.pos, p'.pos);
    BoundPrints(ops[p.pos], p.prev);
    VarIsName(p.vars + 1);
    BoundLine(mode, ops[p.pos], p, Write(mode, ops[p.pos], p), p', k);
  }

  lemma Grown(mode: Mode, op: RenderOp, p: Pen, p': Pen)
    requires Write(mode, op, p).body <= p'.body
    ensures var q := Write(mode, op, p);
            && p.body <= q.body && p.body <= p'.body && p'.body[|p.body|..] == q.body[|p.body|..] + p'.body[|q.body|..]
            && (Effectful(mode, op) ==> q.body[|p.body|..] == EffectToks(mode, p.prev) + [Newline])
            && (!Effectful(mode, op) ==>
                  q.body[|p.body|..] == [Ident(VarName(p.vars + 1)), BindArrow] + BoundToks(op, p.prev) + [Newline])
  {
    hide BoundToks, EffectToks, VarName;
    var q := Write(mode, op, p);
    assert p'.body[..|q.body|] == q.body;
  }

  lemma LineOps(ops: seq<RenderOp>, mode: Mode, i: nat, j: nat)
    requires i + 1 <= j <= |ops|
    ensures Degraded(mode, ops[i..j])
         == [if ops[i].Modal? && !KeepsModal(mode) then BindOther else ops[i]] + Degraded(mode, ops[i + 1..j])
  {
    assert ops[i..j] == [ops[i]] + ops[i + 1..j];
    DegradedJoin(mode, [ops[i]], ops[i + 1..j]);
  }

  lemma EffectLine(mode: Mode, p: Pen, q: Pen, p': Pen, k: Expr)
    requires var m := EffectExpr(mode, p.prev);
             && (m.Pone? || m.Mitte?) && [Ident(S.Verb(m))] + P.Print(4, m.m) == EffectToks(mode, p.prev)
    requires p.body <= q.body <= p'.body && q.body[|p.body|..] == EffectToks(mode, p.prev) + [Newline]
    requires p'.body[|p.body|..] == q.body[|p.body|..] + p'.body[|q.body|..]
    requires p'.body[|q.body|..] + [RBrace] == S.PrintStmts(k)
    ensures p'.body[|p.body|..] + [RBrace] == S.PrintStmts(Bind(mode, EffectExpr(mode, p.prev), "_", k))
  {
    hide WordOf, EffectExpr, EffectToks, P.Print, S.Verb, S.PrintStmts;
    var b := Bind(mode, EffectExpr(mode, p.prev), "_", k);
    S.BindTokens(b);
    var rest := p'.body[|q.body|..];
    assert EffectToks(mode, p.prev) + [Newline] + rest + [RBrace] == EffectToks(mode, p.prev) + [Newline] + (rest + [RBrace]);
  }

  lemma BoundLine(mode: Mode, op: RenderOp, p: Pen, q: Pen, p': Pen, k: Expr)
    requires var m := BoundExpr(op, p.prev); P.Print(0, m) == BoundToks(op, p.prev) && !m.Mitte? && !m.Pone?
    requires p.body <= q.body <= p'.body
    requires q.body[|p.body|..] == [Ident(VarName(p.vars + 1)), BindArrow] + BoundToks(op, p.prev) + [Newline]
    requires p'.body[|p.body|..] == q.body[|p.body|..] + p'.body[|q.body|..]
    requires p'.body[|q.body|..] + [RBrace] == S.PrintStmts(k)
    ensures p'.body[|p.body|..] + [RBrace] == S.PrintStmts(Bind(mode, BoundExpr(op, p.prev), VarName(p.vars + 1), k))
  {
    hide WordOf, BoundExpr, BoundToks, P.Print, S.PrintStmts, VarName;
    var x := Ident(VarName(p.vars + 1));
    var b := Bind(mode, BoundExpr(op, p.prev), VarName(p.vars + 1), k);
    S.BindTokens(b);
    var rest, ts := p'.body[|q.body|..], BoundToks(op, p.prev);
    assert [x, BindArrow] + ts + [Newline] + rest + [RBrace] == [x] + ([BindArrow] + (ts + [Newline] + (rest + [RBrace])));
  }

  lemma {:induction false} BranchWrites(ops: seq<RenderOp>, mode: Mode, p: Pen)
    requires p.pos < |ops| && ops[p.pos].Branch? && Block(ops, mode, p).Took? && NameOk(p.prev)
    ensures Writes(ops, mode, p, Block(ops, mode, p).val, BodyOf(ops, mode, p))
    decreases |ops| - p.pos, 0
  {
    hide WordOf, Writes;
    var p1 := Put(p.(pos := p.pos + 1), OPEN_ARM);
    var t := BodyOf(ops, mode, p1);
    BlockWrites(ops, mode, p1);
    var p2 := Block(ops, mode, p1).val;
    ArmEnds(ops, mode, p1, p2, t);
    var q2 := Put(p2, NEXT_ARM);
    var f := BodyOf(ops, mode, q2);
    BlockWrites(ops, mode, q2);
    var p3 := Block(ops, mode, q2).val;
    ArmsWrite(ops, mode, p, p1, p2, q2, p3, t, f);
  }

  lemma ArmEnds(ops: seq<RenderOp>, mode: Mode, p: Pen, p': Pen, e: Expr)
    requires Writes(ops, mode, p, p', e)
    ensures NameOk(p'.prev)
  {
  }

  lemma ArmsWrite(ops: seq<RenderOp>, mode: Mode, p: Pen, p1: Pen, p2: Pen, q2: Pen, p3: Pen, t: Expr, f: Expr)
    requires p.pos < |ops| && ops[p.pos].Branch? && p1 == Put(p.(pos := p.pos + 1), OPEN_ARM) && q2 == Put(p2, NEXT_ARM)
    requires Writes(ops, mode, p1, p2, t) && Writes(ops, mode, q2, p3, f)
    ensures Writes(ops, mode, p, Put(p3, CLOSE_ARM), If(Lit(Bool(true)), t, f))
  {
    hide WordOf, S.PrintStmts, S.Writable, R.Sung, Degraded;
    var e, p' := If(Lit(Bool(true)), t, f), Put(p3, CLOSE_ARM);
    ArmTokens(p, p1, p2, q2, p3, t, f);
    ArmOps(ops, mode, p.pos, p2.pos, p3.pos, e);
    ArmsWritable(mode, t, f);
  }

  lemma ArmTokens(p: Pen, p1: Pen, p2: Pen, q2: Pen, p3: Pen, t: Expr, f: Expr)
    requires p1.body == p.body + OPEN_ARM && q2.body == p2.body + NEXT_ARM && p1.body <= p2.body && q2.body <= p3.body
    requires p2.body[|p1.body|..] + [RBrace] == S.PrintStmts(t) && p3.body[|q2.body|..] + [RBrace] == S.PrintStmts(f)
    ensures p.body <= p3.body + CLOSE_ARM
    ensures (p3.body + CLOSE_ARM)[|p.body|..] + [RBrace] == S.PrintStmts(If(Lit(Bool(true)), t, f))
  {
    hide S.PrintStmts, P.Print;
    var a, b := p2.body[|p1.body|..], p3.body[|q2.body|..];
    assert p2.body == p1.body + a && p3.body == q2.body + b;
    S.IfTokens(If(Lit(Bool(true)), t, f));
    TruePrints();
    assert (p3.body + CLOSE_ARM)[|p.body|..] == OPEN_ARM + a + NEXT_ARM + b + CLOSE_ARM;
    ArmsJoin(a, b);
  }

  lemma ArmsJoin(a: seq<Tok>, b: seq<Tok>)
    ensures OPEN_ARM + a + NEXT_ARM + b + CLOSE_ARM + [RBrace]
         == [Ident("si")] + ([Ident("verum")] + [Ident("tunc")] + S.Thens(a + [RBrace], b + [RBrace]))
  {
    assert NEXT_ARM == [RBrace] + [Ident("aliter"), LBrace, Newline] && CLOSE_ARM + [RBrace] == [RBrace] + [Newline, RBrace];
    assert S.Elses(b + [RBrace]) == [Ident("aliter"), LBrace, Newline] + b + (CLOSE_ARM + [RBrace]);
    assert S.Thens(a + [RBrace], b + [RBrace]) == [LBrace, Newline] + a + ([RBrace] + S.Elses(b + [RBrace]));
  }

  lemma TruePrints()
    ensures P.Print(0, Lit(Bool(true))) == [Ident("verum")] && S.Fits(0, Lit(Bool(true)))
  {
  }

  lemma ArmsWritable(mode: Mode, t: Expr, f: Expr)
    requires S.Writable(mode, 0, t) && S.Writable(mode, 0, f)
    ensures S.Writable(mode, 0, If(Lit(Bool(true)), t, f))
  {
    hide S.Fits;
    TruePrints();
  }

  lemma ArmOps(ops: seq<RenderOp>, mode: Mode, i: nat, j: nat, l: nat, e: Expr)
    requires i < |ops| && ops[i].Branch? && i + 1 < j < l <= |ops| && e.If?
    requires R.Sung(e.t) == Degraded(mode, ops[i + 1..j]) && R.Sung(e.e) == Degraded(mode, ops[j..l])
    ensures R.Sung(e) == Degraded(mode, ops[i..l])
  {
    assert ops[i..l] == [Branch] + ops[i + 1..j] + ops[j..l];
    DegradedJoin(mode, [Branch], ops[i + 1..j]);
    DegradedJoin(mode, [Branch] + ops[i + 1..j], ops[j..l]);
    assert Degraded(mode, [Branch]) == [Branch];
  }

  lemma DegradedJoin(mode: Mode, a: seq<RenderOp>, b: seq<RenderOp>)
    ensures Degraded(mode, a + b) == Degraded(mode, a) + Degraded(mode, b)
  {
  }

  // --- the whole round trip ---

  lemma {:induction false} OpsAt(mode: Mode, pitches: seq<nat>, cadence: nat, i: nat)
    requires i <= |pitches| && OpsFrom(mode, pitches, cadence, i).Took?
    ensures var ops := OpsFrom(mode, pitches, cadence, i).val;
            |ops| == |pitches| - i && forall j :: 0 <= j < |ops| ==> DegreeOffset(mode, Degree(mode, ops[j])) == pitches[i + j] - cadence
    decreases |pitches| - i
  {
    hide DegreeOffset, Degree, OpOfDegree;
    if i < |pitches| {
      OpsAt(mode, pitches, cadence, i + 1);
      var d := FindDegree(mode, Interval(pitches[i], cadence), 1).value;
      DegreesBijective(mode);
      var ops := OpsFrom(mode, pitches, cadence, i).val;
      forall j | 0 <= j < |ops| ensures DegreeOffset(mode, Degree(mode, ops[j])) == pitches[i + j] - cadence {
        if j > 0 { assert ops[j] == OpsFrom(mode, pitches, cadence, i + 1).val[j - 1]; }
      }
    }
  }

  /** The same melody in another octave. */
  predicate OctavesApart(a: seq<int>, b: seq<int>) {
    |a| == |b| && forall i :: 0 <= i < |a| ==> (a[i] - b[i]) % 12 == 0 && a[i] - b[i] == a[|a| - 1] - b[|a| - 1]
  }

  /** A note the mode has no line for. */
  predicate Degrades(mode: Mode, ops: seq<RenderOp>) {
    !KeepsModal(mode) && exists i :: 0 <= i < |ops| && ops[i].Modal?
  }

  function FinalIs(mode: Mode): nat {
    FinalPitch(mode.FinalOf())
  }

  lemma CadenceClass(pitches: seq<nat>)
    requires Transcribe(pitches).Took?
    ensures pitches != [] && (pitches[|pitches| - 1] - FinalIs(Transcribe(pitches).val.mode)) % 12 == 0
  {
    hide OpsFrom, Block, Dips;
  }

  /** What is emitted for an accepted phrase parses, and renders to the phrase in octave 4,
      with a degraded note a plain bind's. */
  lemma TranscribedSings(pitches: seq<nat>, toks: Toks, c: Cursor, voice: nat, onset: nat)
    requires Transcribe(pitches).Took? && c.parens == 0 && c.depth == 0
    requires P.Reads(toks, c.pos, Transcribe(pitches).val.body)
    ensures var t := Transcribe(pitches).val;
            var r := S.ParseStmts(toks, c, t.mode);
            && Block(t.ops, t.mode, BLANK).Took? && r.Ok? && r.val == BodyOf(t.ops, t.mode, BLANK)
            && r.at == P.After(c, t.body) && S.Writable(t.mode, 0, r.val)
            && R.Pitches(R.Played(r.val, t.mode, voice, onset)) == R.PitchesOf(t.mode, Degraded(t.mode, t.ops))
  {
    hide Block, OpsFrom, Dips, FinalOfPitch, S.ParseStmts, R.PitchesOf, R.Pitches, R.Played;
    var t := Transcribe(pitches).val;
    var e := BodyOf(t.ops, t.mode, BLANK);
    BlockWrites(t.ops, t.mode, BLANK);
    var p := Block(t.ops, t.mode, BLANK).val;
    assert p.body[|BLANK.body|..] == p.body && t.ops[0..|t.ops|] == t.ops;
    S.StmtsRoundTrip(toks, c, t.mode, e);
    R.PlayedSings(e, t.mode, voice, onset);
  }

  lemma PhraseOps(pitches: seq<nat>)
    requires Transcribe(pitches).Took?
    ensures var t := Transcribe(pitches).val;
            && |t.ops| == |pitches| > 0
            && forall j :: 0 <= j < |t.ops| ==> pitches[|pitches| - 1] + DegreeOffset(t.mode, Degree(t.mode, t.ops[j])) == pitches[j]
  {
    hide Block, Dips, Degree, DegreeOffset, OpsFrom;
    OpsAt(Transcribe(pitches).val.mode, pitches, pitches[|pitches| - 1], 0);
  }

  /** The rendered transcript is the phrase up to octave exactly when no note of it degrades. */
  lemma PhraseRoundTrip(pitches: seq<nat>, toks: Toks, c: Cursor, voice: nat, onset: nat)
    requires Transcribe(pitches).Took? && c.parens == 0 && c.depth == 0
    requires P.Reads(toks, c.pos, Transcribe(pitches).val.body)
    ensures var t := Transcribe(pitches).val;
            var r := S.ParseStmts(toks, c, t.mode);
            r.Ok? && (OctavesApart(pitches, R.Pitches(R.Played(r.val, t.mode, voice, onset))) <==> !Degrades(t.mode, t.ops))
  {
    hide Block, S.ParseStmts, R.Played, R.Pitches, R.PitchesOf, OctavesApart, Degrades, Degraded, Transcribe, BodyOf, P.Reads, Degree, DegreeOffset, S.Writable;
    TranscribedSings(pitches, toks, c, voice, onset);
    PhraseOps(pitches);
    CadenceClass(pitches);
    var t := Transcribe(pitches).val;
    PitchesMatch(t.mode, t.ops, pitches);
  }

  lemma PitchesMatch(mode: Mode, ops: seq<RenderOp>, pitches: seq<nat>)
    requires pitches != [] && |ops| == |pitches| && (pitches[|pitches| - 1] - FinalIs(mode)) % 12 == 0
    requires forall j :: 0 <= j < |ops| ==> pitches[|pitches| - 1] + DegreeOffset(mode, Degree(mode, ops[j])) == pitches[j]
    ensures OctavesApart(pitches, R.PitchesOf(mode, Degraded(mode, ops))) <==> !Degrades(mode, ops)
  {
    hide DegreeOffset, Degree;
    var n, cad := |ops|, pitches[|pitches| - 1];
    var out := R.PitchesOf(mode, Degraded(mode, ops));
    LastIsFinal(mode, ops);
    if !Degrades(mode, ops) {
      assert Degraded(mode, ops) == ops;
      assert forall i :: 0 <= i < n ==> pitches[i] - out[i] == cad - FinalIs(mode);
    } else {
      var i :| 0 <= i < n && ops[i].Modal?;
      assert out[i] == DegreePitch(mode, Degree(mode, BindOther));
      ModalDiffers(mode);
      assert pitches[i] - out[i] != cad - out[n - 1];
    }
  }

  /** The last note is at the cadence pitch, which is the final. */
  lemma LastIsFinal(mode: Mode, ops: seq<RenderOp>)
    requires ops != [] && DegreeOffset(mode, Degree(mode, ops[|ops| - 1])) == 0
    ensures ops[|ops| - 1] == Cadence && R.PitchesOf(mode, Degraded(mode, ops))[|ops| - 1] == FinalIs(mode)
  {
    OffsetsInjective(mode, Degree(mode, ops[|ops| - 1]), 1);
  }

  lemma ModalDiffers(mode: Mode)
    ensures DegreeOffset(mode, Degree(mode, Modal)) != DegreeOffset(mode, Degree(mode, BindOther))
  {
    OffsetsInjective(mode, 6, 4);
  }

  // --- recovering the mode of a rendered verse ---

  /** A body whose lines are no cadences or branches and whose every arm cadences. */
  predicate Complete(e: Expr) {
    if e.Bind? then !R.Classify(e.m).Cadence? && !R.Classify(e.m).Branch? && Complete(e.k)
    else if e.If? then Complete(e.t) && Complete(e.e)
    else R.Cadences(e)
  }

  lemma {:induction false} ShapedIsComplete(mode: Mode, e: Expr)
    requires S.Shaped(mode, e)
    ensures Complete(e)
  {
    hide WordOf;
    if e.Bind? { ShapedIsComplete(mode, e.k); }
    else if e.If? { ShapedIsComplete(mode, e.t); ShapedIsComplete(mode, e.e); }
  }

  /** A block written for what a complete body sings ends where the body ends. */
  lemma {:induction false} BlockAccepts(ops: seq<RenderOp>, mode: Mode, p: Pen, e: Expr)
    requires Complete(e) && p.pos + |R.Sung(e)| <= |ops| && ops[p.pos..p.pos + |R.Sung(e)|] == R.Sung(e)
    ensures Block(ops, mode, p).Took? && Block(ops, mode, p).val.pos == p.pos + |R.Sung(e)|
    decreases e, 1
  {
    hide Write, R.Classify;
    if e.Bind? {
      SplitOps(ops, p.pos, R.Classify(e.m), R.Sung(e.k), []);
      WriteMoves(mode, ops[p.pos], p);
      BlockAccepts(ops, mode, Write(mode, ops[p.pos], p), e.k);
    } else if e.If? {
      BranchAccepts(ops, mode, p, e);
    } else {
      SplitOps(ops, p.pos, Cadence, [], []);
    }
  }

  lemma {:induction false} BranchAccepts(ops: seq<RenderOp>, mode: Mode, p: Pen, e: Expr)
    requires e.If? && Complete(e) && p.pos + |R.Sung(e)| <= |ops| && ops[p.pos..p.pos + |R.Sung(e)|] == R.Sung(e)
    ensures Block(ops, mode, p).Took? && Block(ops, mode, p).val.pos == p.pos + |R.Sung(e)|
    decreases e, 0
  {
    hide Write, R.Classify;
    var a, b := R.Sung(e.t), R.Sung(e.e);
    assert R.Sung(e) == [Branch] + a + b;
    SplitOps(ops, p.pos, Branch, a, b);
    hide R.Sung;
    var p1 := Put(p.(pos := p.pos + 1), OPEN_ARM);
    BlockAccepts(ops, mode, p1, e.t);
    var p2 := Put(Block(ops, mode, p1).val, NEXT_ARM);
    BlockAccepts(ops, mode, p2, e.e);
  }

  lemma SplitOps(ops: seq<RenderOp>, i: nat, op: RenderOp, a: seq<RenderOp>, b: seq<RenderOp>)
    requires var n := 1 + |a| + |b|; i + n <= |ops| && ops[i..i + n] == [op] + a + b
    ensures ops[i] == op && ops[i + 1..i + 1 + |a|] == a && ops[i + 1 + |a|..i + 1 + |a| + |b|] == b
  {
    var ts := ops[i..i + 1 + |a| + |b|];
    assert ts[0] == op;
    forall j | 0 <= j < |a| ensures ops[i + 1 + j] == a[j] { assert ts[1 + j] == ([op] + a + b)[1 + j]; }
    forall j | 0 <= j < |b| ensures ops[i + 1 + |a| + j] == b[j] { assert ts[1 + |a| + j] == ([op] + a + b)[1 + |a| + j]; }
  }

  lemma WriteMoves(mode: Mode, op: RenderOp, p: Pen)
    ensures Write(mode, op, p).pos == p.pos + 1
  {
  }

  lemma {:induction false} LastCadences(e: Expr)
    requires Complete(e)
    ensures var ops := R.Sung(e); |ops| > 0 && ops[|ops| - 1] == Cadence
    decreases e
  {
    hide R.Classify;
    if e.Bind? { LastCadences(e.k); } else if e.If? { LastCadences(e.t); LastCadences(e.e); }
  }

  /** The pitches of a melody, which are all in MIDI range. */
  function Keys(mode: Mode, ops: seq<RenderOp>): (r: seq<nat>)
    ensures |r| == |ops| && forall i :: 0 <= i < |ops| ==> r[i] == DegreePitch(mode, Degree(mode, ops[i]))
  {
    seq(|ops|, i requires 0 <= i < |ops| =>
      (OffsetsInjective(mode, Degree(mode, ops[i]), 1); DegreePitch(mode, Degree(mode, ops[i]))))
  }

  /** The operations on degrees that lie under a plagal final. */
  predicate Low(op: RenderOp) {
    op.Modal? || op.ResolveOp? || op.Branch?
  }

  predicate AnyLow(ops: seq<RenderOp>) {
    exists i :: 0 <= i < |ops| && Low(ops[i])
  }

  lemma {:induction false} OpsRead(mode: Mode, ops: seq<RenderOp>, i: nat)
    requires i <= |ops|
    ensures OpsFrom(mode, Keys(mode, ops), FinalIs(mode), i) == Took(ops[i..])
    decreases |ops| - i
  {
    hide DegreeOffset, Degree, OpOfDegree;
    if i < |ops| {
      OpsRead(mode, ops, i + 1);
      var d := Degree(mode, ops[i]);
      var found := FindDegree(mode, DegreeOffset(mode, d), 1);
      OffsetsInjective(mode, found.value, d);
      DegreesBijective(mode);
      assert ops[i..] == [ops[i]] + ops[i + 1..];
    }
  }

  lemma KeysDip(mode: Mode, ops: seq<RenderOp>)
    ensures Dips(Keys(mode, ops), FinalIs(mode)) <==> mode.IsPlagal() && AnyLow(ops)
  {
    hide DegreeOffset;
    forall i | 0 <= i < |ops| ensures Keys(mode, ops)[i] < FinalIs(mode) <==> mode.IsPlagal() && Low(ops[i]) {
      DipsBelow(mode, Degree(mode, ops[i]));
    }
    if mode.IsPlagal() && AnyLow(ops) {
      var i :| 0 <= i < |ops| && Low(ops[i]);
      assert Keys(mode, ops)[i] < FinalIs(mode);
    }
  }

  /** Transcribing a rendered verse recovers its mode exactly when the mode is authentic or some
      line lies under the final, and then it recovers the operations too. */
  lemma ModeRecovered(e: Expr, mode: Mode)
    requires Complete(e)
    ensures var ops := R.Sung(e);
            var r := Transcribe(Keys(mode, ops));
            && ((r.Took? && r.val.mode == mode) <==> (!mode.IsPlagal() || AnyLow(ops)))
            && (!mode.IsPlagal() || AnyLow(ops) ==> r.Took? && r.val.ops == ops)
  {
    hide Block, OpsFrom, R.Sung, Degree, DegreeOffset, Dips, AnyLow;
    var ops := R.Sung(e);
    var keys := Keys(mode, ops);
    LastCadences(e);
    CadenceOnFinal(mode);
    assert keys[|keys| - 1] == FinalIs(mode);
    KeysDip(mode, ops);
    ModeOfFinal(mode);
    if !mode.IsPlagal() || AnyLow(ops) {
      OpsRead(mode, ops, 0);
      assert ops[0..] == ops && ops[0..0 + |ops|] == ops;
      BlockAccepts(ops, mode, BLANK, e);
    }
  }

  /** So for every verse body there is: whatever the parser returns sings to the end. */
  lemma ParsedModeRecovered(toks: Toks, c: Cursor, mode: Mode)
    requires c.pos <= |toks| && S.ParseStmts(toks, c, mode).Ok?
    ensures var ops := R.Sung(S.ParseStmts(toks, c, mode).val);
            var r := Transcribe(Keys(mode, ops));
            && ((r.Took? && r.val.mode == mode) <==> (!mode.IsPlagal() || AnyLow(ops)))
            && (!mode.IsPlagal() || AnyLow(ops) ==> r.Took? && r.val.ops == ops)
  {
    hide S.ParseStmts, S.Shaped, Complete, Transcribe, R.Sung, AnyLow;
    S.ParsedIsShaped(toks, c, mode);
    ShapedIsComplete(mode, S.ParseStmts(toks, c, mode).val);
    ModeRecovered(S.ParseStmts(toks, c, mode).val, mode);
  }

  lemma CadenceOnFinal(mode: Mode)
    ensures DegreePitch(mode, Degree(mode, Cadence)) == FinalIs(mode) && FinalOfPitch(FinalIs(mode)) == Some(mode.FinalOf())
  {
  }

  lemma ModeOfFinal(mode: Mode)
    ensures forall b :: FromFinal(mode.FinalOf(), b) == mode <==> b == mode.IsPlagal()
  {
  }

  // --- the transcriber as the program has it ---

  /** It walks the operations, writing lines; both arms of a branch share its counters. */
  class Transcriber {
    const ops: seq<RenderOp>
    const mode: Mode
    var pos: nat
    var body: seq<Tok>
    var vars: nat
    var prev: Option<string>
    var needsFugue: bool

    constructor (heard: seq<RenderOp>, m: Mode)
      ensures ops == heard && mode == m && State() == BLANK
    {
      ops, mode := heard, m;
      pos, body, vars, prev, needsFugue := 0, [], 0, None, false;
    }

    function State(): Pen
      reads this
    {
      Pen(pos, body, vars, prev, needsFugue)
    }

    method NextVar() returns (v: string)
      modifies this`vars
      ensures vars == old(vars) + 1 && v == VarName(vars)
    {
      vars := vars + 1;
      v := VarName(vars);
    }

    method WriteLine(ts: seq<Tok>)
      modifies this`body
      ensures body == old(body) + ts + [Newline]
    {
      body := body + ts + [Newline];
    }

    /** A line that is neither a cadence nor a branch. */
    method Statement(op: RenderOp)
      requires !op.Cadence? && !op.Branch? && pos > 0
      modifies this
      ensures State() == Write(mode, op, old(State()).(pos := old(pos) - 1))
    {
      hide VarName, BoundToks, EffectToks;
      if op.AskOp? || op.ResolveOp? { needsFugue := true; }
      if Effectful(mode, op) {
        WriteLine(EffectToks(mode, prev));
      } else {
        var v := NextVar();
        WriteLine([Ident(v), BindArrow] + BoundToks(op, prev));
        prev := Some(v);
      }
    }

    method WriteBlock() returns (r: Heard<()>)
      requires pos <= |ops|
      modifies this
      ensures match Block(ops, mode, old(State()))
              case Took(p) => r == Took(()) && State() == p
              case Refused(n, f) => r == Refused(n, f)
      decreases |ops| - pos
    {
      hide Write;
      while true
        invariant old(pos) <= pos <= |ops| && Block(ops, mode, State()) == Block(ops, mode, old(State()))
        decreases |ops| - pos
      {
        if pos == |ops| { return Refused(pos + 1, NoCadence); }
        var op := ops[pos];
        ghost var was := State();
        pos := pos + 1;
        if op.Cadence? {
          body := body + Amens(prev);
          return Took(());
        } else if op.Branch? {
          body := body + OPEN_ARM;
          r := WriteBlock();
          if r.Refused? { return; }
          body := body + NEXT_ARM;
          r := WriteBlock();
          if r.Refused? { return; }
          body := body + CLOSE_ARM;
          return Took(());
        }
        Statement(op);
        WriteMoves(mode, op, was);
      }
    }
  }

  function Prepend(ops: seq<RenderOp>, r: Heard<seq<RenderOp>>): Heard<seq<RenderOp>> {
    if r.Took? then Took(ops + r.val) else r
  }

  lemma Prepending(ops: seq<RenderOp>, op: RenderOp, r: Heard<seq<RenderOp>>)
    ensures Prepend([], r) == r && Prepend(ops, Prepend([op], r)) == Prepend(ops + [op], r)
    ensures Prepend(ops, Took([])) == Took(ops)
  {
    if r.Took? { assert [] + r.val == r.val && ops + ([op] + r.val) == ops + [op] + r.val; }
    assert ops + [] == ops;
  }

  /** Transcribe a played phrase. */
  method TranscribePhrase(pitches: seq<nat>) returns (r: Heard<Transcript>)
    ensures r == Transcribe(pitches)
  {
    hide Block, FindDegree, DegreeOffset, OpOfDegree, Dips;
    if pitches == [] { return Refused(0, Silence); }
    var cadence := pitches[|pitches| - 1];
    var f := FinalOfPitch(cadence);
    if f.None? { return Refused(|pitches|, OutsideModes); }
    var mode := FromFinal(f.value, Dips(pitches, cadence));
    var ops := [];
    Prepending([], Cadence, OpsFrom(mode, pitches, cadence, 0));
    for i := 0 to |pitches|
      invariant OpsFrom(mode, pitches, cadence, 0) == Prepend(ops, OpsFrom(mode, pitches, cadence, i))
    {
      var d := FindDegree(mode, Interval(pitches[i], cadence), 1);
      if d.None? { return Refused(i + 1, NoDegree(pitches[i])); }
      Prepending(ops, OpOfDegree(mode, d.value).value, OpsFrom(mode, pitches, cadence, i + 1));
      ops := ops + [OpOfDegree(mode, d.value).value];
    }
    Prepending(ops, Cadence, Took([]));
    assert OpsFrom(mode, pitches, cadence, 0) == Took(ops);
    var t := new Transcriber(ops, mode);
    var written := t.WriteBlock();
    if written.Refused? { return Refused(written.note, written.fault); }
    if t.pos != |ops| { return Refused(t.pos + 1, AfterAmen); }
    r := Took(Transcript(mode, ops, t.body + [RBrace], t.needsFugue));
  }
}
