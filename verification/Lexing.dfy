/** The lexer's line structure: newlines collapse, and a semicolon is a separator after a sung
    line's head and a comment anywhere else (lexer.rs). Words, numbers and strings arrive whole. */
module Lexing {
  import opened Core
  import opened Grammar
  import L = Liturgy

  /** A stretch of the source: a newline, white space, a semicolon, or the text of one token. */
  datatype Piece = Nl | Space | SemiColon | Text(t: Tok)

  predicate Readable(ps: seq<Piece>) {
    forall i :: 0 <= i < |ps| && ps[i].Text? ==> !ps[i].t.Newline? && !ps[i].t.Semi?
  }

  /** Where the line of the last token begins. */
  function LineStart(toks: Toks): (r: nat)
    ensures r <= |toks|
    ensures forall i :: r <= i < |toks| ==> !toks[i].t.Newline?
    ensures r > 0 ==> toks[r - 1].t.Newline?
  {
    if toks == [] then 0
    else if toks[|toks| - 1].t.Newline? then |toks|
    else LineStart(toks[..|toks| - 1])
  }

  /** The line so far is exactly a rhyme label and a sung text. */
  predicate SungHead(toks: Toks) {
    var head := toks[LineStart(toks)..];
    |head| == 2 && L.HeadAt(head, 0)
  }

  function SkipLine(ps: seq<Piece>, i: nat): (r: nat)
    requires i <= |ps|
    ensures i <= r <= |ps|
    ensures forall j :: i <= j < r ==> !ps[j].Nl?
    ensures r < |ps| ==> ps[r].Nl?
    decreases |ps| - i
  {
    if i < |ps| && !ps[i].Nl? then SkipLine(ps, i + 1) else i
  }

  /** The tokens from piece `i` on, after those already lexed. */
  function LexFrom(ps: seq<Piece>, i: nat, line: nat, toks: Toks): Toks
    requires i <= |ps|
    decreases |ps| - i
  {
    if i == |ps| then toks
    else match ps[i]
      case Nl => LexFrom(ps, i + 1, line + 1, if toks == [] || toks[|toks| - 1].t.Newline? then toks else toks + [Lexeme(Newline, line)])
      case Space => LexFrom(ps, i + 1, line, toks)
      case SemiColon =>
        if SungHead(toks) then LexFrom(ps, i + 1, line, toks + [Lexeme(Semi, line)])
        else LexFrom(ps, SkipLine(ps, i), line, toks)
      case Text(t) => LexFrom(ps, i + 1, line, toks + [Lexeme(t, line)])
  }

  function LexAll(ps: seq<Piece>): Toks {
    LexFrom(ps, 0, 1, [])
  }

  /** What a token stream looks like: no newline first or after another, and every semicolon the
      third token of its line, after a label and a text. */
  predicate Tidy(toks: Toks) {
    && (forall i :: 0 <= i < |toks| && toks[i].t.Newline? ==> i > 0 && !toks[i - 1].t.Newline?)
    && (forall i :: 0 <= i < |toks| && toks[i].t.Semi? ==> SungHead(toks[..i]))
  }

  lemma TidySnoc(toks: Toks, x: Lexeme)
    requires Tidy(toks)
    requires x.t.Newline? ==> toks != [] && !toks[|toks| - 1].t.Newline?
    requires x.t.Semi? ==> SungHead(toks)
    ensures Tidy(toks + [x])
  {
    hide SungHead;
    var all := toks + [x];
    forall i | 0 <= i < |all| && all[i].t.Semi? ensures SungHead(all[..i]) {
      assert all[..i] == toks[..i];
      if i == |toks| { assert toks[..i] == toks; }
    }
  }

  lemma {:induction false} LexesTidily(ps: seq<Piece>, i: nat, line: nat, toks: Toks)
    requires i <= |ps| && Readable(ps) && Tidy(toks)
    ensures Tidy(LexFrom(ps, i, line, toks)) && toks <= LexFrom(ps, i, line, toks)
    decreases |ps| - i
  {
    hide SungHead, Tidy;
    if i < |ps| {
      match ps[i]
      case Nl =>
        if toks == [] || toks[|toks| - 1].t.Newline? {
          LexesTidily(ps, i + 1, line + 1, toks);
        } else {
          TidySnoc(toks, Lexeme(Newline, line));
          LexesTidily(ps, i + 1, line + 1, toks + [Lexeme(Newline, line)]);
        }
      case Space => LexesTidily(ps, i + 1, line, toks);
      case SemiColon =>
        if SungHead(toks) {
          TidySnoc(toks, Lexeme(Semi, line));
          LexesTidily(ps, i + 1, line, toks + [Lexeme(Semi, line)]);
        } else {
          LexesTidily(ps, SkipLine(ps, i), line, toks);
        }
      case Text(t) =>
        TidySnoc(toks, Lexeme(t, line));
        LexesTidily(ps, i + 1, line, toks + [Lexeme(t, line)]);
    }
  }

  /** Runs of newlines are one token and none comes first; a semicolon is a token only as the
      third of a line that begins with a label and a text. */
  lemma LexIsTidy(ps: seq<Piece>)
    requires Readable(ps)
    ensures Tidy(LexAll(ps))
  {
    LexesTidily(ps, 0, 1, []);
  }

  /** A second semicolon on a line is never a token. */
  lemma OneSemiALine(toks: Toks, i: nat, j: nat)
    requires Tidy(toks) && i < j < |toks| && toks[i].t.Semi? && toks[j].t.Semi?
    ensures exists k :: i < k < j && toks[k].t.Newline?
  {
    var s := LineStart(toks[..j]);
    assert SungHead(toks[..j]) && s + 2 == j;
    if i < s {
      assert toks[s - 1].t.Newline?;
      assert toks[i] != toks[s - 1];
    }
  }

  /** A comment runs to the end of its line and leaves no trace: the pieces from a semicolon that
      follows no sung head up to the newline can be left out. */
  lemma {:induction false} CommentsVanish(pre: seq<Piece>, comment: seq<Piece>, rest: seq<Piece>, i: nat,
          line: nat, toks: Toks)
    requires i <= |pre| && comment != [] && comment[0].SemiColon? && (forall k :: 0 <= k < |comment| ==> !comment[k].Nl?)
    requires rest == [] || rest[0].Nl?
    requires !SungHead(LexFrom(pre, i, line, toks)) && SkipsStop(pre, i)
    ensures LexFrom(pre + comment + rest, i, line, toks) == LexFrom(pre + rest, i, line, toks)
    decreases |pre| - i
  {
    hide SungHead;
    var a, b := pre + comment + rest, pre + rest;
    if i == |pre| {
      assert a[i] == comment[0];
      SkipsTo(a, i, i + |comment|);
      SameTail(a, i + |comment|, b, i, line, toks);
    } else {
      assert a[i] == pre[i] == b[i];
      match pre[i]
      case Nl =>
        var toks' := if toks == [] || toks[|toks| - 1].t.Newline? then toks else toks + [Lexeme(Newline, line)];
        CommentsVanish(pre, comment, rest, i + 1, line + 1, toks');
      case Space => CommentsVanish(pre, comment, rest, i + 1, line, toks);
      case Text(t) => CommentsVanish(pre, comment, rest, i + 1, line, toks + [Lexeme(t, line)]);
      case SemiColon =>
        if SungHead(toks) {
          CommentsVanish(pre, comment, rest, i + 1, line, toks + [Lexeme(Semi, line)]);
        } else {
          var e := SkipLine(pre, i);
          assert SkipsStop(pre, e);
          SkipsTo(a, i, e);
          SkipsTo(b, i, e);
          CommentsVanish(pre, comment, rest, e, line, toks);
        }
    }
  }

  /** No comment of the prefix is still open at its end. */
  predicate SkipsStop(pre: seq<Piece>, i: nat) {
    forall k :: i <= k < |pre| && pre[k].SemiColon? ==> exists n :: k < n < |pre| && pre[n].Nl?
  }

  lemma {:induction false} SkipsTo(ps: seq<Piece>, i: nat, e: nat)
    requires i <= e <= |ps| && (forall k :: i <= k < e ==> !ps[k].Nl?) && (e < |ps| ==> ps[e].Nl?)
    ensures SkipLine(ps, i) == e
    decreases e - i
  {
    if i < e { SkipsTo(ps, i + 1, e); }
  }

  lemma {:induction false} SameTail(a: seq<Piece>, i: nat, b: seq<Piece>, j: nat, line: nat, toks: Toks)
    requires i <= |a| && j <= |b| && a[i..] == b[j..]
    ensures LexFrom(a, i, line, toks) == LexFrom(b, j, line, toks)
    decreases |a| - i
  {
    hide SungHead;
    assert |a| - i == |b| - j;
    if i < |a| {
      assert a[i] == a[i..][0] == b[j..][0] == b[j];
      assert a[i + 1..] == a[i..][1..] == b[j..][1..] == b[j + 1..];
      match a[i]
      case Nl =>
        SameTail(a, i + 1, b, j + 1, line + 1, if toks == [] || toks[|toks| - 1].t.Newline? then toks else toks + [Lexeme(Newline, line)]);
      case Space => SameTail(a, i + 1, b, j + 1, line, toks);
      case Text(t) => SameTail(a, i + 1, b, j + 1, line, toks + [Lexeme(t, line)]);
      case SemiColon =>
        if SungHead(toks) {
          SameTail(a, i + 1, b, j + 1, line, toks + [Lexeme(Semi, line)]);
        } else {
          var e := SkipLine(a, i);
          var d := e - i;
          forall k | j <= k < j + d ensures !b[k].Nl? { assert b[k] == b[j..][k - j] == a[i..][k - j] == a[i + (k - j)]; }
          if e < |a| { assert b[j + d] == b[j..][d] == a[i..][d] == a[e]; }
          SkipsTo(b, j, j + d);
          assert a[e..] == a[i..][d..] && b[j + d..] == b[j..][d..];
          SameTail(a, e, b, j + d, line, toks);
        }
    }
  }

  // --- what the tokens are: the source line by line ---

  /** The texts up to the first semicolon. */
  function Words(line: seq<Piece>): seq<Tok> {
    if line == [] || line[0].SemiColon? then []
    else if line[0].Text? then [line[0].t] + Words(line[1..])
    else Words(line[1..])
  }

  predicate Labelled(ws: seq<Tok>) {
    |ws| == 2 && ws[0].Ident? && L.IsRhyme(ws[0].s) && ws[1].Str?
  }

  /** Where the first semicolon is, or the end. */
  function FirstSemi(line: seq<Piece>): (k: nat)
    ensures k <= |line| && (k < |line| ==> line[k].SemiColon?)
  {
    if line == [] || line[0].SemiColon? then 0 else 1 + FirstSemi(line[1..])
  }

  /** The tokens of a line: its texts up to the semicolon, which begins a comment unless a label and
      a sung text are all there is before it; then it is a token and the next one begins the comment. */
  function LineToks(line: seq<Piece>): seq<Tok> {
    var ws, k := Words(line), FirstSemi(line);
    if k < |line| && Labelled(ws) then ws + [Semi] + Words(line[k + 1..]) else ws
  }

  function Numbered(ts: seq<Tok>, n: nat): (r: Toks)
    ensures |r| == |ts| && forall i :: 0 <= i < |ts| ==> r[i] == Lexeme(ts[i], n)
  {
    seq(|ts|, i requires 0 <= i < |ts| => Lexeme(ts[i], n))
  }

  /** The lines from number `n` on, each with its tokens, and a newline after it if it has any. */
  function ByLine(ps: seq<Piece>, n: nat): Toks
    decreases |ps|
  {
    var e := SkipLine(ps, 0);
    var ts := Numbered(LineToks(ps[..e]), n);
    if e == |ps| then ts else ts + (if ts == [] then [] else [Lexeme(Newline, n)]) + ByLine(ps[e + 1..], n + 1)
  }

  /** The tokens are at the start of a line. */
  predicate AtLineStart(toks: Toks) {
    toks == [] || toks[|toks| - 1].t.Newline?
  }

  predicate NoNewline(ts: seq<Tok>) {
    forall i :: 0 <= i < |ts| ==> !ts[i].Newline?
  }

  /** The head of the line so far is what has been lexed of it. */
  lemma HeadIsLine(toks: Toks, ts: seq<Tok>, n: nat)
    requires AtLineStart(toks) && NoNewline(ts)
    ensures SungHead(toks + Numbered(ts, n)) <==> Labelled(ts)
  {
    LineBegins(toks, Numbered(ts, n));
    var all := toks + Numbered(ts, n);
    assert all[|toks|..] == Numbered(ts, n);
  }

  lemma {:induction false} LineBegins(toks: Toks, cur: Toks)
    requires AtLineStart(toks) && forall i :: 0 <= i < |cur| ==> !cur[i].t.Newline?
    ensures LineStart(toks + cur) == |toks|
    decreases |cur|
  {
    if cur == [] {
      assert toks + cur == toks;
    } else {
      assert (toks + cur)[..|toks + cur| - 1] == toks + cur[..|cur| - 1];
      LineBegins(toks, cur[..|cur| - 1]);
    }
  }

  lemma NumberedSnoc(toks: Toks, ts: seq<Tok>, t: Tok, n: nat)
    ensures toks + Numbered(ts, n) + [Lexeme(t, n)] == toks + Numbered(ts + [t], n)
  {
  }

  /** What a line still to be lexed adds once its semicolon has been a token. */
  lemma {:induction false} LexesRest(ps: seq<Piece>, i: nat, e: nat, n: nat, toks: Toks, ts: seq<Tok>)
    requires Readable(ps) && i <= e <= |ps| && (forall k :: i <= k < e ==> !ps[k].Nl?) && (e < |ps| ==> ps[e].Nl?)
    requires AtLineStart(toks) && NoNewline(ts) && |ts| > 2
    ensures LexFrom(ps, i, n, toks + Numbered(ts, n)) == LexFrom(ps, e, n, toks + Numbered(ts + Words(ps[i..e]), n))
    decreases e - i
  {
    hide SungHead;
    if i == e {
      assert ts + Words(ps[i..e]) == ts;
    } else {
      assert ps[i..e][1..] == ps[i + 1..e];
      match ps[i]
      case Space => LexesRest(ps, i + 1, e, n, toks, ts);
      case SemiColon =>
        HeadIsLine(toks, ts, n);
        SkipsTo(ps, i, e);
        assert ts + Words(ps[i..e]) == ts;
      case Text(t) =>
        NumberedSnoc(toks, ts, t, n);
        LexesRest(ps, i + 1, e, n, toks, ts + [t]);
        assert ts + [t] + Words(ps[i + 1..e]) == ts + Words(ps[i..e]);
    }
  }

  /** The tokens of a line of which `ts` have been lexed. */
  function RestToks(ts: seq<Tok>, line: seq<Piece>): seq<Tok> {
    var k := FirstSemi(line);
    var ws := ts + Words(line);
    if k < |line| && Labelled(ws) then ws + [Semi] + Words(line[k + 1..]) else ws
  }

  /** One piece of a line. */
  lemma PieceLexes(ps: seq<Piece>, i: nat, n: nat, toks: Toks)
    requires i < |ps|
    ensures ps[i].Space? ==> LexFrom(ps, i, n, toks) == LexFrom(ps, i + 1, n, toks)
    ensures ps[i].Text? ==> LexFrom(ps, i, n, toks) == LexFrom(ps, i + 1, n, toks + [Lexeme(ps[i].t, n)])
    ensures ps[i].SemiColon? && SungHead(toks) ==> LexFrom(ps, i, n, toks) == LexFrom(ps, i + 1, n, toks + [Lexeme(Semi, n)])
    ensures ps[i].SemiColon? && !SungHead(toks) ==> LexFrom(ps, i, n, toks) == LexFrom(ps, SkipLine(ps, i), n, toks)
  {
    hide SungHead;
  }

  lemma RestOf(ts: seq<Tok>, line: seq<Piece>)
    ensures line == [] ==> RestToks(ts, line) == ts
    ensures line != [] && line[0].SemiColon? ==>
              RestToks(ts, line) == if Labelled(ts) then ts + [Semi] + Words(line[1..]) else ts
    ensures line != [] && line[0].Text? ==> RestToks(ts, line) == RestToks(ts + [line[0].t], line[1..])
    ensures line != [] && !line[0].SemiColon? && !line[0].Text? ==> RestToks(ts, line) == RestToks(ts, line[1..])
  {
    hide Labelled;
    assert line == [] || line[0].SemiColon? ==> ts + Words(line) == ts;
    if line != [] && line[0].Text? { assert ts + [line[0].t] + Words(line[1..]) == ts + Words(line); }
    if line != [] && !line[0].SemiColon? {
      var k := FirstSemi(line);
      assert k == 1 + FirstSemi(line[1..]);
      if k < |line| { assert line[k + 1..] == line[1..][k..]; }
    }
  }

  lemma {:induction false} LexesLine(ps: seq<Piece>, i: nat, e: nat, n: nat, toks: Toks, ts: seq<Tok>)
    requires Readable(ps) && i <= e <= |ps| && (forall k :: i <= k < e ==> !ps[k].Nl?) && (e < |ps| ==> ps[e].Nl?)
    requires AtLineStart(toks) && NoNewline(ts)
    ensures LexFrom(ps, i, n, toks + Numbered(ts, n)) == LexFrom(ps, e, n, toks + Numbered(RestToks(ts, ps[i..e]), n))
    decreases e - i
  {
    hide SungHead, Labelled, LexFrom, RestToks, Numbered, AtLineStart;
    var line := ps[i..e];
    RestOf(ts, line);
    if i < e {
      assert line[1..] == ps[i + 1..e] && line[0] == ps[i];
      PieceLexes(ps, i, n, toks + Numbered(ts, n));
      match ps[i]
      case Space => LexesLine(ps, i + 1, e, n, toks, ts);
      case SemiColon =>
        HeadIsLine(toks, ts, n);
        if Labelled(ts) {
          NumberedSnoc(toks, ts, Semi, n);
          LabelIsShort(ts);
          LexesRest(ps, i + 1, e, n, toks, ts + [Semi]);
        } else {
          SkipsTo(ps, i, e);
        }
      case Text(t) =>
        NumberedSnoc(toks, ts, t, n);
        LexesLine(ps, i + 1, e, n, toks, ts + [t]);
    }
  }

  lemma LabelIsShort(ts: seq<Tok>)
    requires Labelled(ts)
    ensures |ts| == 2
  {
  }

  lemma {:induction false} WordsReadable(line: seq<Piece>)
    requires Readable(line)
    ensures NoNewline(Words(line))
  {
    if line != [] && !line[0].SemiColon? { WordsReadable(line[1..]); }
  }

  lemma LineReadable(line: seq<Piece>)
    requires Readable(line)
    ensures NoNewline(LineToks(line))
  {
    hide Labelled;
    WordsReadable(line);
    if FirstSemi(line) < |line| { WordsReadable(line[FirstSemi(line) + 1..]); }
  }

  lemma {:induction false} LexesByLine(ps: seq<Piece>, i: nat, n: nat, toks: Toks)
    requires Readable(ps) && i <= |ps| && AtLineStart(toks)
    ensures LexFrom(ps, i, n, toks) == toks + ByLine(ps[i..], n)
    decreases |ps| - i
  {
    hide LineToks, Numbered, LexFrom, AtLineStart, ByLine, SkipLine, RestToks;
    var rest := ps[i..];
    var d := SkipLine(rest, 0);
    var e := i + d;
    LineOf(ps, i, d);
    LinesUnfold(rest, n);
    var ts := LineToks(rest[..d]);
    FromTheStart(rest[..d], toks, n);
    LexesLine(ps, i, e, n, toks, []);
    LineReadable(rest[..d]);
    AfterLine(toks, ts, n);
    if e < |ps| {
      var after := if ts == [] then toks else toks + Numbered(ts, n) + [Lexeme(Newline, n)];
      NewlineLexes(ps, e, n, toks + Numbered(ts, n), after);
      LexesByLine(ps, e + 1, n + 1, after);
      assert rest[d + 1..] == ps[e + 1..];
      Appended(toks, Numbered(ts, n), if ts == [] then [] else [Lexeme(Newline, n)], ByLine(ps[e + 1..], n + 1));
    } else {
      EndLexes(ps, n, toks + Numbered(ts, n));
    }
  }

  lemma LineOf(ps: seq<Piece>, i: nat, d: nat)
    requires Readable(ps) && i <= |ps| && d == SkipLine(ps[i..], 0)
    ensures i + d <= |ps| && ps[i..i + d] == ps[i..][..d] && Readable(ps[i..][..d])
    ensures (forall k :: i <= k < i + d ==> !ps[k].Nl?) && (i + d < |ps| ==> ps[i + d].Nl?)
  {
    assert forall k :: i <= k < i + d ==> ps[k] == ps[i..][k - i];
  }

  lemma LinesUnfold(ps: seq<Piece>, n: nat)
    ensures var e := SkipLine(ps, 0);
            var ts := Numbered(LineToks(ps[..e]), n);
            ByLine(ps, n) == if e == |ps| then ts else ts + (if ts == [] then [] else [Lexeme(Newline, n)]) + ByLine(ps[e + 1..], n + 1)
  {
    hide LineToks, Numbered;
  }

  lemma NewlineLexes(ps: seq<Piece>, e: nat, n: nat, toks: Toks, after: Toks)
    requires e < |ps| && ps[e].Nl? && after == if AtLineStart(toks) then toks else toks + [Lexeme(Newline, n)]
    ensures LexFrom(ps, e, n, toks) == LexFrom(ps, e + 1, n + 1, after) && AtLineStart(after)
  {
  }

  lemma EndLexes(ps: seq<Piece>, n: nat, toks: Toks)
    ensures LexFrom(ps, |ps|, n, toks) == toks
  {
  }

  lemma Appended(toks: Toks, line: Toks, nl: Toks, more: Toks)
    ensures toks + line + nl + more == toks + (line + nl + more)
    ensures line == [] && nl == [] ==> toks + more == toks + (line + nl + more)
  {
  }

  lemma FromTheStart(line: seq<Piece>, toks: Toks, n: nat)
    ensures toks + Numbered([], n) == toks && RestToks([], line) == LineToks(line)
  {
    assert [] + Words(line) == Words(line);
  }

  lemma AfterLine(toks: Toks, ts: seq<Tok>, n: nat)
    requires AtLineStart(toks) && NoNewline(ts)
    ensures var all := toks + Numbered(ts, n);
            && (ts == [] ==> all == toks && Numbered(ts, n) == [])
            && (ts != [] ==> !AtLineStart(all) && Numbered(ts, n) != [])
  {
  }

  /** The tokens are those of the lines, one line after the other, each numbered by its line: every
      text outside a comment, in order, and a newline after every line that has a token. */
  lemma LexIsByLine(ps: seq<Piece>)
    requires Readable(ps)
    ensures LexAll(ps) == ByLine(ps, 1)
  {
    LexesByLine(ps, 0, 1, []);
    assert ps[0..] == ps && [] + ByLine(ps, 1) == ByLine(ps, 1);
  }

  // --- and every tidy stream is the reading of a source ---

  function PieceOf(t: Tok): Piece {
    if t.Newline? then Nl else if t.Semi? then SemiColon else Text(t)
  }

  /** A source of the tokens, with white space wherever one likes. */
  predicate Writes(ps: seq<Piece>, toks: Toks)
    decreases |ps|
  {
    if ps == [] then toks == []
    else if ps[0].Space? then Writes(ps[1..], toks)
    else toks != [] && ps[0] == PieceOf(toks[0].t) && Writes(ps[1..], toks[1..])
  }

  predicate SameToks(a: Toks, b: Toks) {
    |a| == |b| && forall i :: 0 <= i < |a| ==> a[i].t == b[i].t
  }

  lemma {:induction false} SameHead(a: Toks, b: Toks)
    requires SameToks(a, b)
    ensures LineStart(a) == LineStart(b) && (SungHead(a) <==> SungHead(b))
  {
    SameStart(a, b);
  }

  lemma {:induction false} SameStart(a: Toks, b: Toks)
    requires SameToks(a, b)
    ensures LineStart(a) == LineStart(b)
  {
    if a != [] && !a[|a| - 1].t.Newline? { SameStart(a[..|a| - 1], b[..|b| - 1]); }
  }

  lemma {:induction false} LexesWritten(ps: seq<Piece>, i: nat, line: nat, done: Toks, toks: Toks, k: nat)
    requires i <= |ps| && k <= |toks| && Tidy(toks) && SameToks(done, toks[..k]) && Writes(ps[i..], toks[k..])
    ensures SameToks(LexFrom(ps, i, line, done), toks)
    decreases |ps| - i
  {
    hide SungHead, Tidy;
    if i == |ps| {
      assert toks[..k] == toks;
    } else {
      assert ps[i..][1..] == ps[i + 1..] && ps[i..][0] == ps[i];
      if ps[i].Space? {
        LexesWritten(ps, i + 1, line, done, toks, k);
      } else {
        assert toks[k..][0] == toks[k] && toks[k..][1..] == toks[k + 1..];
        assert toks[..k + 1] == toks[..k] + [toks[k]];
        TidyAt(toks, k, done);
        LexesWritten(ps, i + 1, if ps[i].Nl? then line + 1 else line, done + [Lexeme(toks[k].t, line)], toks, k + 1);
      }
    }
  }

  lemma TidyAt(toks: Toks, k: nat, done: Toks)
    requires Tidy(toks) && k < |toks| && SameToks(done, toks[..k])
    ensures toks[k].t.Newline? ==> !AtLineStart(done)
    ensures toks[k].t.Semi? ==> SungHead(done)
  {
    hide SungHead;
    SameHead(done, toks[..k]);
  }

  /** Lexing undoes writing: any source that writes a tidy stream lexes to its tokens. */
  lemma WrittenLexes(ps: seq<Piece>, toks: Toks)
    requires Tidy(toks) && Writes(ps, toks)
    ensures SameToks(LexAll(ps), toks)
  {
    assert ps[0..] == ps && toks[0..] == toks && toks[..0] == [];
    LexesWritten(ps, 0, 1, [], toks, 0);
  }

  /** The lexer as the program has it: one loop over the source. */
  method Lex(ps: seq<Piece>) returns (toks: Toks)
    ensures toks == LexAll(ps)
  {
    hide SungHead;
    toks := [];
    var line, i: nat := 1, 0;
    while i < |ps|
      invariant i <= |ps| && LexFrom(ps, i, line, toks) == LexAll(ps)
      decreases |ps| - i
    {
      match ps[i]
      case Nl =>
        if toks != [] && !toks[|toks| - 1].t.Newline? { toks := toks + [Lexeme(Newline, line)]; }
        line := line + 1;
        i := i + 1;
      case Space => i := i + 1;
      case SemiColon =>
        if SungHead(toks) {
          toks := toks + [Lexeme(Semi, line)];
          i := i + 1;
        } else {
          var was := i;
          while i < |ps| && !ps[i].Nl?
            invariant was <= i <= |ps| && SkipLine(ps, i) == SkipLine(ps, was)
            invariant forall k :: was <= k < i ==> !ps[k].Nl?
          {
            i := i + 1;
          }
        }
      case Text(t) =>
        toks := toks + [Lexeme(t, line)];
        i := i + 1;
    }
  }
}
