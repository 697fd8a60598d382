/** The sung form: each line opens with a rhyme label, a text and a semicolon, which the parser
    drains from its tokens before it reads the statements (parser.rs). */
module Liturgy {
  import opened Core
  import opened Grammar
  import opened Printing
  import opened Score

  predicate IsRhyme(s: string) {
    |s| == 1 && 'A' <= s[0] <= 'Z'
  }

  /** The labels are the capital letters, each by itself. */
  lemma LabelsAreCapitals(s: string)
    ensures IsRhyme(s) <==> exists i :: 0 <= i < |CAPITALS| && s == [CAPITALS[i]]
  {
    if IsRhyme(s) { CapitalAt(s[0]); }
  }

  const CAPITALS: string := "ABCDEFGHIJKLMNOPQRSTUVWXYZ"

  lemma CapitalAt(c: char)
    requires 'A' <= c <= 'Z'
    ensures CAPITALS[c as int - 'A' as int] == c
  {
  }

  datatype Rhyme = Rhyme(letter: char, text: string)

  /** A label with a sung text after it. */
  predicate HeadAt(toks: Toks, j: nat) {
    && j + 1 < |toks| && toks[j].t.Ident? && IsRhyme(toks[j].t.s) && toks[j + 1].t.Str?
  }

  datatype Stripped = Stripped(toks: Toks, rhymes: seq<Rhyme>) | Malformed(line: nat, what: Gripe)

  /** The tokens from `j` on with the heads of their lines drained, up to the brace that closes
      `depth` open ones. */
  function StripFrom(toks: Toks, j: nat, depth: nat, atStart: bool, rhymes: seq<Rhyme>): (r: Stripped)
    requires j <= |toks| && depth > 0
    ensures r.Stripped? ==> j <= |r.toks|
    decreases |toks| - j
  {
    if j == |toks| then Stripped(toks, rhymes)
    else if toks[j].t.LBrace? then StripFrom(toks, j + 1, depth + 1, false, rhymes)
    else if toks[j].t.RBrace? then
      if depth == 1 then Stripped(toks, rhymes) else StripFrom(toks, j + 1, depth - 1, false, rhymes)
    else if toks[j].t.Newline? then StripFrom(toks, j + 1, depth, true, rhymes)
    else if atStart && HeadAt(toks, j) then
      if j + 2 < |toks| && toks[j + 2].t.Semi? then
        StripFrom(toks[..j] + toks[j + 3..], j, depth, false, rhymes + [Rhyme(toks[j].t.s[0], toks[j + 1].t.s)])
      else Malformed(toks[j + 1].line, WantSemi)
    else StripFrom(toks, j + 1, depth, false, rhymes)
  }

  function Count(rhymes: seq<Rhyme>, l: char): nat {
    if rhymes == [] then 0 else (if rhymes[0].letter == l then 1 else 0) + Count(rhymes[1..], l)
  }

  /** The first line, from `k` on, whose rhyme no other line answers. */
  function FirstUnanswered(rhymes: seq<Rhyme>, k: nat): (r: Option<char>)
    requires k <= |rhymes|
    ensures r.None? <==> forall i :: k <= i < |rhymes| ==> Count(rhymes, rhymes[i].letter) >= 2
    decreases |rhymes| - k
  {
    if k == |rhymes| then None
    else if Count(rhymes, rhymes[k].letter) < 2 then Some(rhymes[k].letter)
    else FirstUnanswered(rhymes, k + 1)
  }

  /** Eight lines, a couplet at the end, and no rhyme alone. */
  function Judge(rhymes: seq<Rhyme>): Option<Gripe> {
    if |rhymes| != 8 then Some(WantEightLines(|rhymes|))
    else if rhymes[6].letter != rhymes[7].letter then Some(WantCouplet)
    else match FirstUnanswered(rhymes, 0)
      case Some(l) => Some(Unanswered(l))
      case None => None
  }

  /** The strip from the cursor on; the plain form is left as it is. */
  function Strip(toks: Toks, pos: nat): (r: Stripped)
    requires pos <= |toks|
    ensures r.Stripped? ==> pos <= |r.toks|
  {
    var i := PastNewlines(toks, pos);
    if !HeadAt(toks, i) then Stripped(toks, [])
    else match StripFrom(toks, i, 1, true, [])
      case Malformed(l, w) => Malformed(l, w)
      case Stripped(toks', rhymes) =>
        match Judge(rhymes)
        case Some(w) => Malformed(if pos < |toks'| then toks'[pos].line else 1, w)
        case None => Stripped(toks', rhymes)
  }

  /** A verse's body after its opening brace: strip, then statements. */
  function ParseBody(toks: Toks, c: Cursor, mode: Mode): Parsed<(Expr, seq<Rhyme>)>
    requires c.pos <= |toks|
  {
    match Strip(toks, c.pos)
    case Malformed(l, w) => Err(l, w)
    case Stripped(toks', rhymes) =>
      match ParseStmts(toks', c, mode)
      case Ok(b, c') => Ok((b, rhymes), c')
      case Err(l, w) => Err(l, w)
  }

  // --- scores ---

  /** A line of a score: its tokens and what ends it, and, if it is sung, its rhyme and text. */
  datatype Line =
    | Sung(letter: char, text: string, line: nat, stmt: Toks, nl: Lexeme, ended: bool)
    | Unsung(stmt: Toks, nl: Lexeme, ended: bool)

  /** What opens a sung line. */
  function HeadOf(letter: char, text: string, line: nat): (r: Toks)
    ensures |r| == 3
  {
    [Lexeme(Ident([letter]), line), Lexeme(Tok.Str(text), line), Lexeme(Semi, line)]
  }

  function Opening(l: Line): Toks {
    if l.Sung? then HeadOf(l.letter, l.text, l.line) else []
  }

  function RhymeOf(l: Line): seq<Rhyme> {
    if l.Sung? then [Rhyme(l.letter, l.text)] else []
  }

  /** How a token changes the number of open braces. */
  function Turn(t: Tok): int {
    if t.LBrace? then 1 else if t.RBrace? then -1 else 0
  }

  function DepthAfter(d: int, ts: Toks): int
    decreases |ts|
  {
    if ts == [] then d else DepthAfter(d + Turn(ts[0].t), ts[1..])
  }

  /** The verse's own brace stays open throughout, and no newline falls inside. */
  predicate StaysOpen(d: int, ts: Toks)
    decreases |ts|
  {
    d > 0 && (ts != [] ==> !ts[0].t.Newline? && StaysOpen(d + Turn(ts[0].t), ts[1..]))
  }

  /** A line ends in its newline, the last one perhaps at the closing brace. */
  function End(l: Line): Toks {
    if l.ended then [l.nl] else []
  }

  /** A line within the verse; one without a head does not begin as if it had one. */
  predicate LineOk(d: int, l: Line, last: bool) {
    && l.nl.t.Newline? && (l.ended || last) && StaysOpen(d, l.stmt)
    && (if l.Sung? then 'A' <= l.letter <= 'Z' else !HeadAt(l.stmt, 0))
  }

  /** Lines within the verse, ending where only its own brace is open. */
  predicate WellFormed(d: int, lines: seq<Line>)
    decreases |lines|
  {
    if lines == [] then d == 1 else LineOk(d, lines[0], |lines| == 1) && WellFormed(DepthAfter(d, lines[0].stmt), lines[1..])
  }

  function SungForm(lines: seq<Line>): Toks {
    if lines == [] then [] else Opening(lines[0]) + lines[0].stmt + End(lines[0]) + SungForm(lines[1..])
  }

  function PlainForm(lines: seq<Line>): Toks {
    if lines == [] then [] else lines[0].stmt + End(lines[0]) + PlainForm(lines[1..])
  }

  function RhymesOf(lines: seq<Line>): seq<Rhyme> {
    if lines == [] then [] else RhymeOf(lines[0]) + RhymesOf(lines[1..])
  }

  // --- what stripping does to a score ---

  /** Once a line is under way its tokens are passed over. */
  lemma {:induction false} PassesLine(pre: Toks, ts: Toks, rest: Toks, d: nat, rhymes: seq<Rhyme>)
    requires StaysOpen(d, ts)
    ensures DepthAfter(d, ts) > 0
    ensures StripFrom(pre + ts + rest, |pre|, d, false, rhymes)
         == StripFrom(pre + ts + rest, |pre| + |ts|, DepthAfter(d, ts), false, rhymes)
    decreases |ts|
  {
    hide HeadAt;
    if ts != [] {
      assert (pre + ts + rest)[|pre|] == ts[0];
      assert pre + ts + rest == (pre + [ts[0]]) + ts[1..] + rest;
      PassesLine(pre + [ts[0]], ts[1..], rest, d + Turn(ts[0].t), rhymes);
    }
  }

  /** The newline makes the next token the start of a line. */
  lemma PassesNewline(toks: Toks, j: nat, d: nat, rhymes: seq<Rhyme>)
    requires j < |toks| && toks[j].t.Newline? && d > 0
    ensures StripFrom(toks, j, d, false, rhymes) == StripFrom(toks, j + 1, d, true, rhymes)
  {
    hide HeadAt;
  }

  /** What is left of one line, and where the walk goes on. */
  ghost predicate LineStripped(pre: Toks, l: Line, rest: Toks, d: nat, rhymes: seq<Rhyme>)
    requires d > 0 && DepthAfter(d, l.stmt) > 0 && l.ended
  {
    StripFrom(pre + (Opening(l) + l.stmt + End(l) + rest), |pre|, d, true, rhymes)
    == StripFrom(pre + l.stmt + (End(l) + rest), |pre| + |l.stmt| + 1, DepthAfter(d, l.stmt), true, rhymes + RhymeOf(l))
  }

  lemma PassesUnsung(pre: Toks, l: Line, rest: Toks, d: nat, rhymes: seq<Rhyme>)
    requires d > 0 && LineOk(d, l, false) && l.Unsung?
    ensures DepthAfter(d, l.stmt) > 0 && l.ended && LineStripped(pre, l, rest, d, rhymes)
  {
    hide StaysOpen;
    var tail := End(l) + rest;
    var toks := pre + l.stmt + tail;
    assert pre + (Opening(l) + l.stmt + End(l) + rest) == toks && rhymes + RhymeOf(l) == rhymes;
    PassesLine(pre, l.stmt, tail, d, rhymes);
    assert toks[|pre| + |l.stmt|] == l.nl;
    PassesNewline(toks, |pre| + |l.stmt|, DepthAfter(d, l.stmt), rhymes);
    if l.stmt != [] {
      NoHead(pre, l.stmt, tail);
      StartsPlainly(toks, |pre|, d, rhymes);
    }
  }

  lemma NoHead(pre: Toks, stmt: Toks, tail: Toks)
    requires stmt != [] && !HeadAt(stmt, 0) && tail != [] && !tail[0].t.Str?
    ensures !HeadAt(pre + stmt + tail, |pre|)
  {
    var toks := pre + stmt + tail;
    assert toks[|pre|] == stmt[0];
    assert toks[|pre| + 1] == if |stmt| > 1 then stmt[1] else tail[0];
  }

  lemma StartsPlainly(toks: Toks, j: nat, d: nat, rhymes: seq<Rhyme>)
    requires j < |toks| && !HeadAt(toks, j) && d > 0
    ensures StripFrom(toks, j, d, true, rhymes) == StripFrom(toks, j, d, false, rhymes)
  {
    hide HeadAt;
  }

  lemma DrainsHead(pre: Toks, l: Line, rest: Toks, d: nat, rhymes: seq<Rhyme>)
    requires d > 0 && LineOk(d, l, false) && l.Sung?
    ensures DepthAfter(d, l.stmt) > 0 && l.ended && LineStripped(pre, l, rest, d, rhymes)
  {
    hide StaysOpen, HeadAt;
    var tail := End(l) + rest;
    var toks := pre + l.stmt + tail;
    assert pre + (Opening(l) + l.stmt + End(l) + rest) == pre + (HeadOf(l.letter, l.text, l.line) + (l.stmt + tail));
    Drains(pre, l.letter, l.text, l.line, l.stmt + tail, d, rhymes);
    assert pre + (l.stmt + tail) == toks;
    PassesLine(pre, l.stmt, tail, d, rhymes + RhymeOf(l));
    assert toks[|pre| + |l.stmt|] == l.nl;
    PassesNewline(toks, |pre| + |l.stmt|, DepthAfter(d, l.stmt), rhymes + RhymeOf(l));
  }

  lemma Drains(pre: Toks, letter: char, text: string, line: nat, rest: Toks, d: nat, rhymes: seq<Rhyme>)
    requires d > 0 && 'A' <= letter <= 'Z'
    ensures StripFrom(pre + (HeadOf(letter, text, line) + rest), |pre|, d, true, rhymes)
         == StripFrom(pre + rest, |pre|, d, false, rhymes + [Rhyme(letter, text)])
  {
    var h := HeadOf(letter, text, line);
    var toks := pre + (h + rest);
    assert toks[|pre|] == h[0] && toks[|pre| + 1] == h[1] && toks[|pre| + 2] == h[2];
    assert toks[..|pre|] + toks[|pre| + 3..] == pre + rest;
  }

  /** The last line may end at the brace that closes the verse. */
  lemma LastStrips(pre: Toks, l: Line, close: Lexeme, rest: Toks, d: nat, rhymes: seq<Rhyme>)
    requires d > 0 && LineOk(d, l, true) && close.t.RBrace? && DepthAfter(d, l.stmt) == 1
    ensures StripFrom(pre + (Opening(l) + l.stmt + ([close] + rest)), |pre|, d, true, rhymes)
         == Stripped(pre + l.stmt + ([close] + rest), rhymes + RhymeOf(l))
  {
    hide StaysOpen, HeadAt, StripFrom;
    var tail := [close] + rest;
    LastPasses(pre, l.stmt, close, tail, d, rhymes + RhymeOf(l));
    if l.Sung? {
      HeadSplits(pre, l, tail);
      Drains(pre, l.letter, l.text, l.line, l.stmt + tail, d, rhymes);
    } else {
      Bare(pre, l, tail, rhymes);
      if l.stmt != [] { NoHead(pre, l.stmt, tail); } else { BraceIsNoHead(pre + l.stmt + tail, |pre|); }
      StartsPlainly(pre + l.stmt + tail, |pre|, d, rhymes);
    }
  }

  lemma LastPasses(pre: Toks, stmt: Toks, close: Lexeme, tail: Toks, d: nat, rhymes: seq<Rhyme>)
    requires d > 0 && StaysOpen(d, stmt) && close.t.RBrace? && tail != [] && tail[0] == close && DepthAfter(d, stmt) == 1
    ensures StripFrom(pre + stmt + tail, |pre|, d, false, rhymes) == Stripped(pre + stmt + tail, rhymes)
  {
    hide StaysOpen, StripFrom, DepthAfter;
    PassesLine(pre, stmt, tail, d, rhymes);
    assert (pre + stmt + tail)[|pre| + |stmt|] == tail[0];
    StopsAtBrace(pre + stmt + tail, |pre| + |stmt|, rhymes);
  }

  lemma HeadSplits(pre: Toks, l: Line, tail: Toks)
    requires l.Sung?
    ensures pre + (Opening(l) + l.stmt + tail) == pre + (HeadOf(l.letter, l.text, l.line) + (l.stmt + tail))
    ensures pre + (l.stmt + tail) == pre + l.stmt + tail && RhymeOf(l) == [Rhyme(l.letter, l.text)]
  {
    hide HeadOf;
  }

  lemma Bare(pre: Toks, l: Line, tail: Toks, rhymes: seq<Rhyme>)
    requires l.Unsung?
    ensures pre + (Opening(l) + l.stmt + tail) == pre + l.stmt + tail && rhymes + RhymeOf(l) == rhymes
  {
    assert Opening(l) + l.stmt == l.stmt;
  }

  lemma StopsAtBrace(toks: Toks, j: nat, rhymes: seq<Rhyme>)
    requires j < |toks| && toks[j].t.RBrace?
    ensures StripFrom(toks, j, 1, false, rhymes) == Stripped(toks, rhymes)
  {
    hide HeadAt;
  }

  lemma BraceIsNoHead(toks: Toks, j: nat)
    requires j < |toks| && toks[j].t.RBrace?
    ensures !HeadAt(toks, j)
  {
  }

  /** Stripping a sung score leaves the plain one, gathers its rhymes in order, and does not
      touch a token before it or past the brace that closes the verse. */
  lemma {:induction false} StripsToPlain(pre: Toks, lines: seq<Line>, close: Lexeme, rest: Toks, d: nat,
          rhymes: seq<Rhyme>)
    requires d > 0 && WellFormed(d, lines) && close.t.RBrace?
    ensures StripFrom(pre + (SungForm(lines) + [close] + rest), |pre|, d, true, rhymes)
         == Stripped(pre + (PlainForm(lines) + [close] + rest), rhymes + RhymesOf(lines))
    decreases |lines|
  {
    hide StaysOpen, HeadAt, StripFrom, SungForm, PlainForm, RhymesOf, Opening, RhymeOf, DepthAfter;
    if lines == [] {
      NoLines(pre, close, rest, rhymes);
    } else if !lines[0].ended {
      assert lines == [lines[0]];
      LastLine(pre, lines[0], close, rest, d, rhymes);
    } else {
      var l := lines[0];
      var tail := SungForm(lines[1..]) + [close] + rest;
      LineStrips(pre, l, tail, d, rhymes);
      var pre' := pre + l.stmt + End(l);
      StripsToPlain(pre', lines[1..], close, rest, DepthAfter(d, l.stmt), rhymes + RhymeOf(l));
      Regroup(pre, lines, close, rest, rhymes);
    }
  }

  lemma NoLines(pre: Toks, close: Lexeme, rest: Toks, rhymes: seq<Rhyme>)
    requires close.t.RBrace?
    ensures StripFrom(pre + (SungForm([]) + [close] + rest), |pre|, 1, true, rhymes)
         == Stripped(pre + (PlainForm([]) + [close] + rest), rhymes + RhymesOf([]))
  {
    hide HeadAt;
    assert (pre + (SungForm([]) + [close] + rest))[|pre|] == close;
    BraceIsNoHead(pre + (SungForm([]) + [close] + rest), |pre|);
    assert rhymes + RhymesOf([]) == rhymes;
  }

  /** What the forms of a last line are, alone. */
  lemma LastSung(l: Line)
    requires !l.ended
    ensures SungForm([l]) == Opening(l) + l.stmt
  {
    assert [l][1..] == [] && SungForm([]) == [];
    Empties(Opening(l) + l.stmt);
  }

  lemma LastPlain(l: Line)
    requires !l.ended
    ensures PlainForm([l]) == l.stmt && RhymesOf([l]) == RhymeOf(l)
  {
    assert [l][1..] == [] && PlainForm([]) == [] && RhymesOf([]) == [];
    Empties(l.stmt);
    assert RhymeOf(l) + [] == RhymeOf(l);
  }

  lemma Empties<T>(ts: seq<T>)
    ensures ts + [] + [] == ts
  {
  }

  lemma LastLine(pre: Toks, l: Line, close: Lexeme, rest: Toks, d: nat, rhymes: seq<Rhyme>)
    requires d > 0 && LineOk(d, l, true) && !l.ended && close.t.RBrace? && DepthAfter(d, l.stmt) == 1
    ensures StripFrom(pre + (SungForm([l]) + [close] + rest), |pre|, d, true, rhymes)
         == Stripped(pre + (PlainForm([l]) + [close] + rest), rhymes + RhymesOf([l]))
  {
    hide StaysOpen, HeadAt, StripFrom, SungForm, PlainForm, RhymesOf, Opening, RhymeOf, DepthAfter;
    LastSung(l);
    LastPlain(l);
    Closing(pre, SungForm([l]), Opening(l), l.stmt, [close], rest);
    LastStrips(pre, l, close, rest, d, rhymes);
  }

  lemma Closing(pre: Toks, sung: Toks, opening: Toks, stmt: Toks, close: Toks, rest: Toks)
    requires sung == opening + stmt
    ensures sung + close + rest == opening + stmt + (close + rest) && pre + (stmt + close + rest) == pre + stmt + (close + rest)
  {
    Assoc(pre, stmt, close, rest);
  }

  lemma LineStrips(pre: Toks, l: Line, rest: Toks, d: nat, rhymes: seq<Rhyme>)
    requires d > 0 && LineOk(d, l, false)
    ensures DepthAfter(d, l.stmt) > 0 && l.ended && LineStripped(pre, l, rest, d, rhymes)
  {
    hide LineStripped, LineOk;
    if l.Unsung? { PassesUnsung(pre, l, rest, d, rhymes); } else { DrainsHead(pre, l, rest, d, rhymes); }
  }

  lemma Regroup(pre: Toks, lines: seq<Line>, close: Lexeme, rest: Toks, rhymes: seq<Rhyme>)
    requires lines != []
    ensures var l, more, tail := lines[0], lines[1..], SungForm(lines[1..]) + [close] + rest;
            && SungForm(lines) + [close] + rest == Opening(l) + l.stmt + End(l) + tail
            && pre + l.stmt + (End(l) + tail) == (pre + l.stmt + End(l)) + tail
            && (pre + l.stmt + End(l)) + (PlainForm(more) + [close] + rest) == pre + (PlainForm(lines) + [close] + rest)
            && rhymes + RhymeOf(l) + RhymesOf(more) == rhymes + RhymesOf(lines)
  {
    hide SungForm, PlainForm, RhymesOf;
    var l, more := lines[0], lines[1..];
    Forms(lines);
    var tail := SungForm(more) + [close] + rest;
    Assoc(Opening(l) + l.stmt + End(l), SungForm(more), [close], rest);
    Assoc(pre + l.stmt, End(l), tail, []);
    Assoc(l.stmt + End(l), PlainForm(more), [close], rest);
    Assoc(pre, l.stmt, End(l), PlainForm(more) + [close] + rest);
    Assoc(rhymes, RhymeOf(l), RhymesOf(more), []);
  }

  lemma Forms(lines: seq<Line>)
    requires lines != []
    ensures SungForm(lines) == Opening(lines[0]) + lines[0].stmt + End(lines[0]) + SungForm(lines[1..])
    ensures PlainForm(lines) == lines[0].stmt + End(lines[0]) + PlainForm(lines[1..])
    ensures RhymesOf(lines) == RhymeOf(lines[0]) + RhymesOf(lines[1..])
  {
  }

  lemma Assoc<T>(a: seq<T>, b: seq<T>, c: seq<T>, d: seq<T>)
    ensures a + b + c + d == a + (b + c + d)
    ensures d == [] ==> a + b + c == a + (b + c)
  {
    if d == [] { assert a + b + c == a + (b + c); }
  }

  /** A sung text with no semicolon after it. */
  predicate Unseparated(toks: Toks, k: nat) {
    k < |toks| && toks[k].t.Str? && (k + 1 < |toks| ==> !toks[k + 1].t.Semi?)
  }

  /** All the strip itself complains of is a sung text without its semicolon, at that text's line. */
  lemma {:induction false} StripFault(toks: Toks, j: nat, depth: nat, atStart: bool, rhymes: seq<Rhyme>)
    requires j <= |toks| && depth > 0
    ensures var r := StripFrom(toks, j, depth, atStart, rhymes);
            r.Malformed? ==> r.what == WantSemi && exists k: nat :: j <= k && Unseparated(toks, k) && r.line == toks[k].line
    decreases |toks| - j, 1
  {
    hide IsRhyme;
    if j < |toks| {
      if toks[j].t.LBrace? {
        StripFault(toks, j + 1, depth + 1, false, rhymes);
      } else if toks[j].t.RBrace? {
        if depth > 1 { StripFault(toks, j + 1, depth - 1, false, rhymes); }
      } else if toks[j].t.Newline? {
        StripFault(toks, j + 1, depth, true, rhymes);
      } else if atStart && HeadAt(toks, j) {
        if j + 2 < |toks| && toks[j + 2].t.Semi? {
          HeadFault(toks, j, depth, rhymes);
        } else {
          assert Unseparated(toks, j + 1);
        }
      } else {
        StripFault(toks, j + 1, depth, false, rhymes);
      }
    }
  }

  lemma {:induction false} HeadFault(toks: Toks, j: nat, depth: nat, rhymes: seq<Rhyme>)
    requires depth > 0 && HeadAt(toks, j) && j + 2 < |toks|
    ensures var more := rhymes + [Rhyme(toks[j].t.s[0], toks[j + 1].t.s)];
            var r := StripFrom(toks[..j] + toks[j + 3..], j, depth, false, more);
            r.Malformed? ==> r.what == WantSemi && exists k: nat :: j <= k && Unseparated(toks, k) && r.line == toks[k].line
    decreases |toks| - j, 0
  {
    hide StripFrom;
    var drained, more := toks[..j] + toks[j + 3..], rhymes + [Rhyme(toks[j].t.s[0], toks[j + 1].t.s)];
    StripFault(drained, j, depth, false, more);
    var r := StripFrom(drained, j, depth, false, more);
    if r.Malformed? {
      var k: nat :| j <= k && Unseparated(drained, k) && r.line == drained[k].line;
      assert drained[k] == toks[k + 3] && (k + 1 < |drained| ==> drained[k + 1] == toks[k + 4]);
      assert Unseparated(toks, k + 3);
    }
  }

  // --- the sung form is the plain form ---

  predicate Newlines(nls: Toks) {
    forall i :: 0 <= i < |nls| ==> nls[i].t.Newline?
  }

  lemma {:induction false} SkipsNewlines(pre: Toks, nls: Toks, rest: Toks)
    requires Newlines(nls) && (rest != [] ==> !rest[0].t.Newline?)
    ensures PastNewlines(pre + (nls + rest), |pre|) == |pre| + |nls|
    decreases |nls|
  {
    var toks := pre + (nls + rest);
    if nls == [] {
      assert rest != [] ==> toks[|pre|] == rest[0];
    } else {
      assert toks[|pre|] == nls[0];
      assert toks == (pre + [nls[0]]) + (nls[1..] + rest);
      SkipsNewlines(pre + [nls[0]], nls[1..], rest);
    }
  }

  /** A verse's tokens: what precedes its body, blank lines, the score, and what follows. */
  function Verse(pre: Toks, nls: Toks, score: Toks, close: Lexeme, rest: Toks): (r: Toks)
    ensures |r| > |pre|
  {
    pre + (nls + (score + [close] + rest))
  }

  /** The strip of a sung verse is the plain verse and its rhymes, or the fault found in them. */
  lemma StripOfSung(pre: Toks, nls: Toks, lines: seq<Line>, close: Lexeme, rest: Toks)
    requires Newlines(nls) && WellFormed(1, lines) && lines != [] && lines[0].Sung? && close.t.RBrace?
    ensures var r, rhymes := Strip(Verse(pre, nls, SungForm(lines), close, rest), |pre|), RhymesOf(lines);
            match Judge(rhymes)
            case None => r == Stripped(Verse(pre, nls, PlainForm(lines), close, rest), rhymes)
            case Some(w) => r == Malformed(Verse(pre, nls, PlainForm(lines), close, rest)[|pre|].line, w)
  {
    hide StripFrom, Judge, SungForm, PlainForm, RhymesOf, HeadAt;
    var score := SungForm(lines) + [close] + rest;
    var toks := Verse(pre, nls, SungForm(lines), close, rest);
    HeadFirst(lines, [close], rest);
    SkipsNewlines(pre, nls, score);
    HeadStays(pre + nls, score);
    assert toks == (pre + nls) + score;
    StripsToPlain(pre + nls, lines, close, rest, 1, []);
    assert [] + RhymesOf(lines) == RhymesOf(lines);
    assert (pre + nls) + (PlainForm(lines) + [close] + rest) == Verse(pre, nls, PlainForm(lines), close, rest);
  }

  lemma HeadFirst(lines: seq<Line>, close: Toks, rest: Toks)
    requires lines != [] && lines[0].Sung? && 'A' <= lines[0].letter <= 'Z'
    ensures var score := SungForm(lines) + close + rest; HeadAt(score, 0) && !score[0].t.Newline?
  {
    hide StaysOpen;
    var h := Opening(lines[0]);
    var ts := SungForm(lines) + close + rest;
    assert ts[0] == h[0] && ts[1] == h[1];
  }

  lemma HeadStays(pre: Toks, ts: Toks)
    requires HeadAt(ts, 0)
    ensures HeadAt(pre + ts, |pre|)
  {
    assert (pre + ts)[|pre|] == ts[0] && (pre + ts)[|pre| + 1] == ts[1];
  }

  /** The plain score opens as a sung one does: its first statement begins with a label and a text. */
  predicate OpensSung(toks: Toks, pos: nat)
    requires pos <= |toks|
  {
    HeadAt(toks, PastNewlines(toks, pos))
  }

  /** The sung form means the plain form: a well-rhymed score lowers to the statements of the score
      without its heads, from the same cursor, error for error. */
  lemma SungIsPlain(pre: Toks, nls: Toks, lines: seq<Line>, close: Lexeme, rest: Toks, c: Cursor, mode: Mode)
    requires Newlines(nls) && WellFormed(1, lines) && lines != [] && lines[0].Sung? && close.t.RBrace?
    requires c.pos == |pre| && Judge(RhymesOf(lines)).None?
    ensures var sung := ParseBody(Verse(pre, nls, SungForm(lines), close, rest), c, mode);
            var toks := Verse(pre, nls, PlainForm(lines), close, rest);
            var plain := ParseBody(toks, c, mode);
            if OpensSung(toks, |pre|) then sung.Err?
            else match plain
              case Ok(b, c') => b.1 == [] && sung == Ok((b.0, RhymesOf(lines)), c')
              case Err(l, w) => sung == Err(l, w)
  {
    hide StripFrom, Judge, ParseStmts, WellFormed, HeadAt;
    StripOfSung(pre, nls, lines, close, rest);
    var toks := Verse(pre, nls, PlainForm(lines), close, rest);
    if OpensSung(toks, |pre|) { HeadedIsRefused(toks, c, mode); }
  }

  /** No statement begins with a label and a text. */
  lemma HeadedIsRefused(toks: Toks, c: Cursor, mode: Mode)
    requires c.pos <= |toks| && OpensSung(toks, c.pos)
    ensures ParseStmts(toks, c, mode).Err?
  {
    hide WordOf, ParseExpr;
    var p := Lines(toks, c);
    LettersAreNames(toks[p.pos].t.s);
    assert Peek(toks, p) == p && !Heads(HeadWord(toks, p));
    assert ParseStmts(toks, c, mode) == ParseBind(toks, p, mode);
  }

  lemma LettersAreNames(s: string)
    requires IsRhyme(s)
    ensures WordOf(s).Name?
  {
  }

  /** Another line has the rhyme of line `i`. */
  predicate Answered(rhymes: seq<Rhyme>, i: nat)
    requires i < |rhymes|
  {
    exists j :: 0 <= j < |rhymes| && j != i && rhymes[j].letter == rhymes[i].letter
  }

  /** A scheme is accepted exactly when it has eight lines, its couplet rhymes and every line is
      answered by another. */
  lemma JudgedWell(rhymes: seq<Rhyme>)
    ensures Judge(rhymes).None? <==>
              |rhymes| == 8 && rhymes[6].letter == rhymes[7].letter && forall i :: 0 <= i < |rhymes| ==> Answered(rhymes, i)
  {
    hide Answered, Count;
    forall i | 0 <= i < |rhymes|
      ensures Count(rhymes, rhymes[i].letter) >= 2 <==> Answered(rhymes, i)
    {
      Counted(rhymes, i);
    }
  }

  /** A scheme is faulted for its number of lines first, then for its couplet, then for the first line
      that no other answers. */
  lemma FaultsInOrder(rhymes: seq<Rhyme>)
    ensures |rhymes| != 8 ==> Judge(rhymes) == Some(WantEightLines(|rhymes|))
    ensures |rhymes| == 8 && rhymes[6].letter != rhymes[7].letter ==> Judge(rhymes) == Some(WantCouplet)
    ensures |rhymes| == 8 && rhymes[6].letter == rhymes[7].letter && Judge(rhymes).Some? ==>
              exists i: nat :: i < 8 && !Answered(rhymes, i) && Judge(rhymes) == Some(Unanswered(rhymes[i].letter))
                               && forall j :: 0 <= j < i ==> Answered(rhymes, j)
  {
    hide Answered, Count;
    forall i | 0 <= i < |rhymes|
      ensures Count(rhymes, rhymes[i].letter) >= 2 <==> Answered(rhymes, i)
    {
      Counted(rhymes, i);
    }
    if FirstUnanswered(rhymes, 0).Some? { FirstAlone(rhymes, 0); }
  }

  lemma {:induction false} FirstAlone(rhymes: seq<Rhyme>, k: nat)
    requires k <= |rhymes| && FirstUnanswered(rhymes, k).Some?
    ensures exists i: nat :: k <= i < |rhymes| && Count(rhymes, rhymes[i].letter) < 2
              && FirstUnanswered(rhymes, k) == Some(rhymes[i].letter)
              && forall j :: k <= j < i ==> Count(rhymes, rhymes[j].letter) >= 2
    decreases |rhymes| - k
  {
    hide Count;
    if Count(rhymes, rhymes[k].letter) >= 2 { FirstAlone(rhymes, k + 1); }
  }

  /** The letter of line `i` is counted twice exactly when another line has it too. */
  lemma {:induction false} Counted(rhymes: seq<Rhyme>, i: nat)
    requires i < |rhymes|
    ensures Count(rhymes, rhymes[i].letter) >= 2 <==> Answered(rhymes, i)
  {
    var rest, l := rhymes[1..], rhymes[i].letter;
    CountedAt(rest, l);
    if i == 0 {
      assert forall j :: 0 <= j < |rest| ==> rest[j] == rhymes[j + 1];
      if j :| 0 <= j < |rhymes| && j != i && rhymes[j].letter == l { assert rest[j - 1].letter == l; }
    } else {
      assert rest[i - 1] == rhymes[i];
      Counted(rest, i - 1);
      if j :| 0 <= j < |rest| && j != i - 1 && rest[j].letter == l { assert rhymes[j + 1].letter == l; }
      if j :| 0 <= j < |rhymes| && j != i && rhymes[j].letter == l {
        if j > 0 { assert rest[j - 1].letter == l; } else { assert rest[i - 1].letter == l; }
      }
    }
  }

  lemma {:induction false} CountedAt(rhymes: seq<Rhyme>, l: char)
    ensures Count(rhymes, l) > 0 <==> exists j :: 0 <= j < |rhymes| && rhymes[j].letter == l
  {
    if rhymes != [] {
      CountedAt(rhymes[1..], l);
      if j :| 0 <= j < |rhymes| - 1 && rhymes[1..][j].letter == l { assert rhymes[j + 1].letter == l; }
      if j :| 0 <= j < |rhymes| && rhymes[j].letter == l { assert j > 0 ==> rhymes[1..][j - 1].letter == l; }
    }
  }
}
