/** The console as a window on an unbounded page: what stands on the screen after any text, read
    off the text (console.rs). */
module Page {
  import opened Core
  import opened Screen
  import opened Terminal

  /** The rows written so far, the last with the cursor in it; nothing is ever dropped. */
  datatype Sheet = Sheet(rows: Grid, col: nat)

  predicate SheetOk(info: Info, p: Sheet) {
    p.rows != [] && p.col <= info.Cols() && forall r :: 0 <= r < |p.rows| ==> |p.rows[r]| == info.Cols()
  }

  function NextRow(info: Info, p: Sheet): (r: Sheet)
    requires SheetOk(info, p)
    ensures SheetOk(info, r)
  {
    Sheet(p.rows + [BlankRow(info)], 0)
  }

  /** The glyph in a column of the last row. */
  function Ink(info: Info, p: Sheet, col: nat, g: Glyph): (r: Sheet)
    requires SheetOk(info, p) && col < info.Cols()
    ensures SheetOk(info, r) && r.col == p.col && |r.rows| == |p.rows|
  {
    var last := |p.rows| - 1;
    p.(rows := p.rows[last := p.rows[last][col := g]])
  }

  function Type(info: Info, font: Font, p: Sheet, c: char): (r: Sheet)
    requires SheetOk(info, p) && info.Cols() > 0
    ensures SheetOk(info, r)
  {
    if c == '\n' then NextRow(info, p)
    else if c == '\r' then p.(col := 0)
    else if c == BACKSPACE then if p.col == 0 then p else Ink(info, p.(col := p.col - 1), p.col - 1, BLANK)
    else
      var q := if p.col == info.Cols() then NextRow(info, p) else p;
      Ink(info, q.(col := q.col + 1), q.col, GlyphOf(font, c))
  }

  function Text(info: Info, font: Font, p: Sheet, s: string): (r: Sheet)
    requires SheetOk(info, p) && info.Cols() > 0
    ensures SheetOk(info, r)
    decreases |s|
  {
    if s == [] then p else Text(info, font, Type(info, font, p, s[0]), s[1..])
  }

  function FreshSheet(info: Info): (p: Sheet)
    ensures SheetOk(info, p)
  {
    Sheet([BlankRow(info)], 0)
  }

  // --- the screen is a window on the page ---

  /** Row `r` of the screen when `n` rows have been written. */
  function RowShown(info: Info, rows: Grid, r: nat): seq<Glyph> {
    var from := if |rows| > info.Rows() then |rows| - info.Rows() else 0;
    if from + r < |rows| then rows[from + r] else BlankRow(info)
  }

  /** The last rows of the page that fit, on top; the cursor in the last of them. */
  function Window(info: Info, p: Sheet): (t: Term)
    requires SheetOk(info, p) && info.Rows() > 0
    ensures TermOk(info, t)
  {
    Term(seq(info.Rows(), r requires 0 <= r < info.Rows() => RowShown(info, p.rows, r)), p.col,
         (if |p.rows| > info.Rows() then info.Rows() else |p.rows|) - 1)
  }

  lemma WindowFresh(info: Info)
    requires info.Rows() > 0
    ensures Window(info, FreshSheet(info)) == Term(BlankGrid(info), 0, 0)
  {
    assert Window(info, FreshSheet(info)).grid == BlankGrid(info);
  }

  lemma WindowNextRow(info: Info, p: Sheet)
    requires SheetOk(info, p) && info.Rows() > 0
    ensures NewLine(info, Window(info, p)) == Window(info, NextRow(info, p))
  {
    var a, b := NewLine(info, Window(info, p)), Window(info, NextRow(info, p));
    forall r | 0 <= r < info.Rows() ensures a.grid[r] == b.grid[r] { }
    assert a.grid == b.grid;
  }

  lemma WindowInk(info: Info, p: Sheet, col: nat, g: Glyph)
    requires SheetOk(info, p) && info.Rows() > 0 && col < info.Cols()
    ensures var t := Window(info, p); Window(info, Ink(info, p, col, g)) == t.(grid := Put(info, t.grid, t.row, col, g))
  {
    var t := Window(info, p);
    assert Window(info, Ink(info, p, col, g)).grid == Put(info, t.grid, t.row, col, g);
  }

  lemma WindowColumn(info: Info, p: Sheet, col: nat)
    requires SheetOk(info, p) && info.Rows() > 0 && col <= info.Cols()
    ensures Window(info, p.(col := col)) == Window(info, p).(col := col)
  {
  }

  lemma WindowType(info: Info, font: Font, p: Sheet, c: char)
    requires SheetOk(info, p) && info.Rows() > 0 && info.Cols() > 0
    ensures Typed(info, font, Window(info, p), c) == Window(info, Type(info, font, p, c))
  {
    hide Put, NewLine, RowShown, Ink, NextRow;
    if c == '\n' {
      WindowNextRow(info, p);
    } else if c == '\r' {
      WindowColumn(info, p, 0);
    } else if c == BACKSPACE {
      if p.col > 0 {
        WindowColumn(info, p, p.col - 1);
        WindowInk(info, p.(col := p.col - 1), p.col - 1, BLANK);
      }
    } else {
      WindowNextRow(info, p);
      var q := if p.col == info.Cols() then NextRow(info, p) else p;
      WindowColumn(info, q, q.col + 1);
      WindowInk(info, q.(col := q.col + 1), q.col, GlyphOf(font, c));
    }
  }

  /** Whatever is written, the screen shows the last rows of what an unbounded page would. */
  lemma {:induction false} WrittenIsWindow(info: Info, font: Font, p: Sheet, s: string)
    requires SheetOk(info, p) && info.Rows() > 0 && info.Cols() > 0
    ensures Written(info, font, Window(info, p), s) == Window(info, Text(info, font, p, s))
    decreases |s|
  {
    hide Typed, Type, Window;
    if s != [] {
      WindowType(info, font, p, s[0]);
      WrittenIsWindow(info, font, Type(info, font, p, s[0]), s[1..]);
    }
  }

  // --- what text without control characters leaves ---

  predicate Plain(s: string) {
    forall k :: 0 <= k < |s| ==> s[k] != '\n' && s[k] != '\r' && s[k] != BACKSPACE
  }

  /** How many rows `n` characters take, and where they leave the cursor: at the end of a full row,
      not yet on the next. */
  function RowsTaken(w: nat, n: nat): nat
    requires w > 0
  {
    if n == 0 then 1 else (n - 1) / w + 1
  }

  function ColumnAfter(w: nat, n: nat): nat
    requires w > 0
  {
    if n == 0 then 0 else (n - 1) % w + 1
  }

  /** The text in rows of the screen's width, the last filled up with blanks. */
  function Filled(info: Info, font: Font, s: string): Grid
    requires info.Cols() > 0
  {
    seq(RowsTaken(info.Cols(), |s|), r requires 0 <= r => seq(info.Cols(), c requires 0 <= c => CellOf(font, info.Cols(), s, r, c)))
  }

  function CellOf(font: Font, w: nat, s: string, r: nat, c: nat): Glyph {
    if r * w + c < |s| then GlyphOf(font, s[r * w + c]) else BLANK
  }

  lemma {:induction false} TextJoins(info: Info, font: Font, p: Sheet, a: string, b: string)
    requires SheetOk(info, p) && info.Cols() > 0
    ensures Text(info, font, p, a + b) == Text(info, font, Text(info, font, p, a), b)
    decreases |a|
  {
    hide Type;
    if a == [] {
      assert a + b == b;
    } else {
      assert (a + b)[1..] == a[1..] + b;
      TextJoins(info, font, Type(info, font, p, a[0]), a[1..], b);
    }
  }

  lemma OneCharacter(info: Info, font: Font, p: Sheet, c: char)
    requires SheetOk(info, p) && info.Cols() > 0
    ensures Text(info, font, p, [c]) == Type(info, font, p, c)
  {
    hide Type;
    assert [c][1..] == [];
  }

  lemma NextIndex(w: nat, m: nat)
    requires w > 0
    ensures (m + 1) / w == (if m % w == w - 1 then m / w + 1 else m / w)
    ensures (m + 1) % w == (if m % w == w - 1 then 0 else m % w + 1)
  {
    var q, r := m / w, m % w;
    assert m == q * w + r;
    if r == w - 1 {
      assert m + 1 == (q + 1) * w + 0;
      Euclid((m + 1) / w, (m + 1) % w, q + 1, 0, w);
    } else {
      assert m + 1 == q * w + (r + 1);
      Euclid((m + 1) / w, (m + 1) % w, q, r + 1, w);
    }
  }

  /** Cells before the `n`th in reading order, at it, and after it. */
  lemma CellFilled(w: nat, r: nat, k: nat, r0: nat, k0: nat)
    requires k < w && k0 < w && r <= r0
    ensures r * w + k == r0 * w + k0 <==> r == r0 && k == k0
    ensures r * w + k < r0 * w + k0 <==> r < r0 || k < k0
  {
    if r < r0 { Below(r, k, r0, w); }
  }

  lemma CellMore(font: Font, w: nat, s: string, c: char, r: nat, k: nat)
    requires k < w && r <= |s| / w
    ensures CellOf(font, w, s + [c], r, k)
         == if r == |s| / w && k == |s| % w then GlyphOf(font, c) else CellOf(font, w, s, r, k)
    ensures |s| % w == 0 && r == |s| / w ==> CellOf(font, w, s, r, k) == BLANK
  {
    hide GlyphOf;
    var n := |s|;
    assert n == n / w * w + n % w;
    CellFilled(w, r, k, n / w, n % w);
  }

  lemma Sizes(w: nat, n: nat)
    requires w > 0
    ensures var full := n > 0 && ColumnAfter(w, n) == w;
            && RowsTaken(w, n + 1) == n / w + 1 == (if full then RowsTaken(w, n) + 1 else RowsTaken(w, n))
            && n % w == (if full then 0 else ColumnAfter(w, n)) && ColumnAfter(w, n + 1) == n % w + 1
  {
    if n > 0 { NextIndex(w, n - 1); }
  }

  /** One more character: in the next cell of the last row, or the first of a new one. */
  lemma FilledMore(info: Info, font: Font, s: string, c: char)
    requires info.Cols() > 0
    ensures var w, f, g := info.Cols(), Filled(info, font, s), Filled(info, font, s + [c]);
            var n := |s|;
            var full := n > 0 && ColumnAfter(w, n) == w;
            var h := if full then f + [BlankRow(info)] else f;
            && g == h[|h| - 1 := h[|h| - 1][n % w := GlyphOf(font, c)]]
            && n % w == (if full then 0 else ColumnAfter(w, n)) && ColumnAfter(w, n + 1) == n % w + 1
  {
    hide GlyphOf, CellOf, RowsTaken, ColumnAfter;
    var w, n := info.Cols(), |s|;
    Sizes(w, n);
    var f, g := Filled(info, font, s), Filled(info, font, s + [c]);
    var full := n > 0 && ColumnAfter(w, n) == w;
    var h := if full then f + [BlankRow(info)] else f;
    var r0 := n / w;
    assert |s + [c]| == n + 1 && |g| == |h| == r0 + 1;
    forall r | 0 <= r <= r0 ensures g[r] == if r < r0 then h[r] else h[r0][n % w := GlyphOf(font, c)] {
      forall k | 0 <= k < w ensures g[r][k] == (if r < r0 then h[r] else h[r0][n % w := GlyphOf(font, c)])[k] {
        CellMore(font, w, s, c, r, k);
        assert g[r][k] == CellOf(font, w, s + [c], r, k);
        assert r < |f| ==> f[r][k] == CellOf(font, w, s, r, k);
      }
    }
  }

  /** From the start of an empty row, plain text fills rows. */
  lemma {:induction false} PlainFills(info: Info, font: Font, above: Grid, s: string)
    requires info.Cols() > 0 && Plain(s) && SheetOk(info, Sheet(above + [BlankRow(info)], 0))
    ensures Text(info, font, Sheet(above + [BlankRow(info)], 0), s)
         == Sheet(above + Filled(info, font, s), ColumnAfter(info.Cols(), |s|))
    decreases |s|
  {
    hide GlyphOf, Type, Filled;
    var p, w := Sheet(above + [BlankRow(info)], 0), info.Cols();
    if s == [] {
      NothingFilled(info, font);
    } else {
      var n := |s| - 1;
      var t, c := s[..n], s[n];
      PlainFills(info, font, above, t);
      assert t + [c] == s;
      TextJoins(info, font, p, t, [c]);
      var q := Text(info, font, p, t);
      OneCharacter(info, font, q, c);
      FilledMore(info, font, t, c);
      FilledShape(info, font, t);
      LastOf(info, font, above, Filled(info, font, t), q, c);
    }
  }

  lemma FilledShape(info: Info, font: Font, s: string)
    requires info.Cols() > 0
    ensures var f := Filled(info, font, s); f != [] && |f[|f| - 1]| == info.Cols()
  {
  }

  lemma NothingFilled(info: Info, font: Font)
    requires info.Cols() > 0
    ensures Filled(info, font, []) == [BlankRow(info)]
  {
    var f := Filled(info, font, []);
    assert |f| == 1 && f[0] == BlankRow(info);
  }

  lemma LastOf(info: Info, font: Font, above: Grid, f: Grid, q: Sheet, c: char)
    requires SheetOk(info, q) && info.Cols() > 0 && Plain([c]) && q.rows == above + f
    requires f != [] && |f[|f| - 1]| == info.Cols()
    ensures var w := info.Cols();
            var h := if q.col == w then f + [BlankRow(info)] else f;
            var k := if q.col == w then 0 else q.col;
            Type(info, font, q, c) == Sheet(above + h[|h| - 1 := h[|h| - 1][k := GlyphOf(font, c)]], k + 1)
  {
    hide GlyphOf;
    assert [c][0] == c;
    var w := info.Cols();
    var h := if q.col == w then f + [BlankRow(info)] else f;
    assert above + f + [BlankRow(info)] == above + (f + [BlankRow(info)]);
    var rows := above + h;
    assert rows[|rows| - 1] == h[|h| - 1];
    var g := h[|h| - 1][if q.col == w then 0 else q.col := GlyphOf(font, c)];
    assert rows[|rows| - 1 := g] == above + h[|h| - 1 := g];
  }

  // --- lines ---

  function Joined(lines: seq<string>): string
    requires lines != []
  {
    if |lines| == 1 then lines[0] else Joined(lines[..|lines| - 1]) + "\n" + lines[|lines| - 1]
  }

  predicate AllPlain(lines: seq<string>) {
    forall i :: 0 <= i < |lines| ==> Plain(lines[i])
  }

  function FilledAll(info: Info, font: Font, lines: seq<string>): Grid
    requires info.Cols() > 0
  {
    if lines == [] then [] else FilledAll(info, font, lines[..|lines| - 1]) + Filled(info, font, lines[|lines| - 1])
  }

  /** Lines stand below each other, each wrapped by itself. */
  lemma {:induction false} LinesFill(info: Info, font: Font, lines: seq<string>)
    requires info.Cols() > 0 && lines != [] && AllPlain(lines)
    ensures Text(info, font, FreshSheet(info), Joined(lines))
         == Sheet(FilledAll(info, font, lines), ColumnAfter(info.Cols(), |lines[|lines| - 1]|))
  {
    hide Filled, Type, Plain;
    var n := |lines| - 1;
    var last, blank := lines[n], FreshSheet(info);
    if n == 0 {
      assert [] + [BlankRow(info)] == [BlankRow(info)];
      PlainFills(info, font, [], last);
      assert lines[..0] == [] && [] + Filled(info, font, last) == Filled(info, font, last);
    } else {
      var before := lines[..n];
      LinesFill(info, font, before);
      var p := Text(info, font, blank, Joined(before));
      TextJoins(info, font, blank, Joined(before) + "\n", last);
      TextJoins(info, font, blank, Joined(before), "\n");
      OneCharacter(info, font, p, '\n');
      NewlineTypes(info, font, p);
      PlainFills(info, font, p.rows, last);
    }
  }

  lemma NewlineTypes(info: Info, font: Font, p: Sheet)
    requires SheetOk(info, p) && info.Cols() > 0
    ensures Type(info, font, p, '\n') == Sheet(p.rows + [BlankRow(info)], 0)
  {
  }

  /** A line that fits takes one row. */
  function RowOf(info: Info, font: Font, s: string): (r: seq<Glyph>)
    requires |s| <= info.Cols()
    ensures |r| == info.Cols()
    ensures forall c :: 0 <= c < |r| ==> r[c] == if c < |s| then GlyphOf(font, s[c]) else BLANK
  {
    seq(info.Cols(), c requires 0 <= c => if c < |s| then GlyphOf(font, s[c]) else BLANK)
  }

  lemma OneRow(info: Info, font: Font, s: string)
    requires info.Cols() > 0 && |s| <= info.Cols()
    ensures Filled(info, font, s) == [RowOf(info, font, s)]
  {
    hide GlyphOf;
    var f := Filled(info, font, s);
    if s != [] { Euclid((|s| - 1) / info.Cols(), (|s| - 1) % info.Cols(), 0, |s| - 1, info.Cols()); }
    assert |f| == 1;
    forall c | 0 <= c < info.Cols() ensures f[0][c] == RowOf(info, font, s)[c] { assert 0 * info.Cols() + c == c; }
    assert f[0] == RowOf(info, font, s);
  }

  lemma {:induction false} RowsOfLines(info: Info, font: Font, lines: seq<string>)
    requires info.Cols() > 0 && forall i :: 0 <= i < |lines| ==> |lines[i]| <= info.Cols()
    ensures var f := FilledAll(info, font, lines);
            |f| == |lines| && forall i :: 0 <= i < |lines| ==> f[i] == RowOf(info, font, lines[i])
  {
    hide Filled, GlyphOf;
    if lines != [] {
      RowsOfLines(info, font, lines[..|lines| - 1]);
      OneRow(info, font, lines[|lines| - 1]);
    }
  }

  // --- what stands on the screen ---

  function Cleared(info: Info): (t: Term)
    requires info.Rows() > 0
    ensures TermOk(info, t)
  {
    Term(BlankGrid(info), 0, 0)
  }

  predicate HasRoom(info: Info) {
    info.Rows() > 0 && info.Cols() > 0
  }

  /** The screen after a text on a cleared one, row by row. */
  lemma ShowsRows(info: Info, font: Font, s: string)
    requires HasRoom(info)
    ensures var p, t := Text(info, font, FreshSheet(info), s), Written(info, font, Cleared(info), s);
            && t.col == p.col && t.row == (if |p.rows| > info.Rows() then info.Rows() else |p.rows|) - 1
            && |t.grid| == info.Rows() && forall r :: 0 <= r < info.Rows() ==> t.grid[r] == RowShown(info, p.rows, r)
  {
    hide Written, Text, RowShown, FreshSheet;
    WindowFresh(info);
    WrittenIsWindow(info, font, FreshSheet(info), s);
  }

  lemma PlainFillsFresh(info: Info, font: Font, s: string)
    requires HasRoom(info) && Plain(s)
    ensures Text(info, font, FreshSheet(info), s) == Sheet(Filled(info, font, s), ColumnAfter(info.Cols(), |s|))
  {
    hide Text, Filled, ColumnAfter, Plain;
    assert [] + [BlankRow(info)] == [BlankRow(info)];
    PlainFills(info, font, [], s);
    assert [] + Filled(info, font, s) == Filled(info, font, s);
  }

  /** Characters stand in reading order, the rest is blank. */
  lemma TextOnScreen(info: Info, font: Font, s: string)
    requires HasRoom(info) && Plain(s) && |s| <= info.Rows() * info.Cols()
    ensures var t, w := Written(info, font, Cleared(info), s), info.Cols();
            forall r, c :: 0 <= r < info.Rows() && 0 <= c < w ==> t.grid[r][c] == CellOf(font, w, s, r, c)
  {
    hide GlyphOf, Written, Text, Plain, RowShown, CellOf, Cleared, FreshSheet;
    var w, t := info.Cols(), Written(info, font, Cleared(info), s);
    PlainFillsFresh(info, font, s);
    ShowsRows(info, font, s);
    forall r, c | 0 <= r < info.Rows() && 0 <= c < w ensures t.grid[r][c] == CellOf(font, w, s, r, c) {
      CellShown(info, font, s, r, c);
    }
  }

  /** So character `k` stands in the cell `k` counts to. */
  lemma CharacterOnScreen(info: Info, font: Font, s: string, k: nat)
    requires HasRoom(info) && Plain(s) && k < |s| <= info.Rows() * info.Cols()
    ensures k / info.Cols() < info.Rows()
    ensures Written(info, font, Cleared(info), s).grid[k / info.Cols()][k % info.Cols()] == GlyphOf(font, s[k])
  {
    hide Written, CellOf, GlyphOf, Cleared, Plain;
    FewRows(info.Cols(), k + 1, info.Rows());
    TextOnScreen(info, font, s);
    CellAt(font, info.Cols(), s, k);
  }

  lemma CellAt(font: Font, w: nat, s: string, k: nat)
    requires w > 0 && k < |s|
    ensures CellOf(font, w, s, k / w, k % w) == GlyphOf(font, s[k])
  {
    hide GlyphOf;
    assert k == k / w * w + k % w;
  }

  lemma CellShown(info: Info, font: Font, s: string, r: nat, c: nat)
    requires HasRoom(info) && |s| <= info.Rows() * info.Cols() && r < info.Rows() && c < info.Cols()
    ensures RowShown(info, Filled(info, font, s), r)[c] == CellOf(font, info.Cols(), s, r, c)
  {
    hide GlyphOf;
    var f, w := Filled(info, font, s), info.Cols();
    if s != [] { FewRows(w, |s|, info.Rows()); }
    if r >= |f| { PastEnd(w, |s|, r, c); }
  }

  lemma FewRows(w: nat, n: nat, rows: nat)
    requires w > 0 && 0 < n <= rows * w
    ensures (n - 1) / w < rows
  {
    assert n - 1 == (n - 1) / w * w + (n - 1) % w;
    if (n - 1) / w >= rows { Mono(rows, (n - 1) / w, w); }
  }

  lemma PastEnd(w: nat, n: nat, r: nat, c: nat)
    requires w > 0 && r >= RowsTaken(w, n)
    ensures r * w + c >= n
  {
    if n > 0 {
      assert n - 1 == (n - 1) / w * w + (n - 1) % w;
      Mono((n - 1) / w + 1, r, w);
      assert ((n - 1) / w + 1) * w == (n - 1) / w * w + w;
    }
  }

  /** Lines that fit stand one to a row, the last of them if there are more than rows, and the
      cursor after the last. */
  lemma LinesOnScreen(info: Info, font: Font, lines: seq<string>)
    requires HasRoom(info) && lines != [] && AllPlain(lines) && forall i :: 0 <= i < |lines| ==> |lines[i]| <= info.Cols()
    ensures var t := Written(info, font, Cleared(info), Joined(lines));
            var shown := if |lines| < info.Rows() then |lines| else info.Rows();
            && (forall r, c :: 0 <= r < info.Rows() && 0 <= c < info.Cols() ==>
                 t.grid[r][c] == (if r >= shown then BLANK
                                  else
                                    var line := lines[|lines| - shown + r];
                                    if c < |line| then GlyphOf(font, line[c]) else BLANK))
            && t.row == shown - 1 && t.col == |lines[|lines| - 1]|
  {
    hide GlyphOf, Written, Text, Plain, Filled, FreshSheet, Cleared, RowOf, ColumnAfter;
    LinesFill(info, font, lines);
    ShowsRows(info, font, Joined(lines));
    RowsOfLines(info, font, lines);
    var last := lines[|lines| - 1];
    ShortColumn(info.Cols(), |last|);
    var t, n := Written(info, font, Cleared(info), Joined(lines)), |lines|;
    var shown := if n < info.Rows() then n else info.Rows();
    forall r, c | 0 <= r < info.Rows() && 0 <= c < info.Cols()
      ensures t.grid[r][c] == (if r >= shown then BLANK
                               else
                                 var line := lines[n - shown + r];
                                 if c < |line| then GlyphOf(font, line[c]) else BLANK)
    {
      if r < shown { RowHas(info, font, lines[n - shown + r], c); }
    }
  }

  lemma ShortColumn(w: nat, n: nat)
    requires w > 0 && n <= w
    ensures ColumnAfter(w, n) == n
  {
    if n > 0 { Euclid((n - 1) / w, (n - 1) % w, 0, n - 1, w); }
  }

  lemma RowHas(info: Info, font: Font, s: string, c: nat)
    requires |s| <= info.Cols() && c < info.Cols()
    ensures RowOf(info, font, s)[c] == if c < |s| then GlyphOf(font, s[c]) else BLANK
  {
  }

  /** A character the font lacks is shown as the question mark is, and one it has by its own glyph. */
  lemma UnknownCharacters(info: Info, font: Font, t: Term, c: char)
    requires TermOk(info, t) && HasRoom(info) && Plain([c]) && t.col < info.Cols()
    ensures var g := Typed(info, font, t, c).grid[t.row][t.col];
            && (c in font ==> g == font[c])
            && (c !in font && '?' in font ==> g == font['?'] && Typed(info, font, t, c) == Typed(info, font, t, '?'))
            && (c !in font && '?' !in font ==> g == BLANK)
  {
    assert [c][0] == c;
  }

  /** A character and a backspace leave the cursor where it was and the cell blank. */
  lemma BackspaceUndoes(info: Info, font: Font, t: Term, c: char)
    requires TermOk(info, t) && HasRoom(info) && Plain([c]) && t.col < info.Cols()
    ensures Written(info, font, t, [c, BACKSPACE]) == t.(grid := Put(info, t.grid, t.row, t.col, BLANK))
  {
    hide GlyphOf, Put;
    assert [c][0] == c;
    assert [c, BACKSPACE][1..] == [BACKSPACE] && [BACKSPACE][1..] == [];
    PutOver(info, t.grid, t.row, t.col, GlyphOf(font, c), BLANK);
    var t1 := Typed(info, font, t, c);
    assert t1 == Term(Put(info, t.grid, t.row, t.col, GlyphOf(font, c)), t.col + 1, t.row);
    assert Typed(info, font, t1, BACKSPACE) == t.(grid := Put(info, t.grid, t.row, t.col, BLANK));
    assert Written(info, font, t1, [BACKSPACE]) == Typed(info, font, t1, BACKSPACE);
  }

  lemma PutOver(info: Info, grid: Grid, row: nat, col: nat, g: Glyph, h: Glyph)
    requires Shape(info, grid) && row < info.Rows() && col < info.Cols()
    ensures Put(info, Put(info, grid, row, col, g), row, col, h) == Put(info, grid, row, col, h)
  {
    assert grid[row][col := g][col := h] == grid[row][col := h];
  }

  /** A carriage return and a text that fits overwrite the row from its start; what the text does
      not reach stays. */
  lemma {:induction false} ReturnOverwrites(info: Info, font: Font, t: Term, s: string)
    requires TermOk(info, t) && HasRoom(info) && Plain(s) && |s| <= info.Cols()
    ensures var u := Written(info, font, t, "\r" + s);
            && u.row == t.row && u.col == |s|
            && forall r, c :: 0 <= r < info.Rows() && 0 <= c < info.Cols() ==>
                 u.grid[r][c] == if r == t.row && c < |s| then GlyphOf(font, s[c]) else t.grid[r][c]
  {
    hide GlyphOf, Put;
    assert ("\r" + s)[0] == '\r' && ("\r" + s)[1..] == s;
    Overwrites(info, font, t.(col := 0), s);
  }

  lemma {:induction false} Overwrites(info: Info, font: Font, t: Term, s: string)
    requires TermOk(info, t) && HasRoom(info) && Plain(s) && t.col + |s| <= info.Cols()
    ensures var u := Written(info, font, t, s);
            && u.row == t.row && u.col == t.col + |s|
            && forall r, c :: 0 <= r < info.Rows() && 0 <= c < info.Cols() ==>
                 u.grid[r][c] == if r == t.row && t.col <= c < t.col + |s| then GlyphOf(font, s[c - t.col]) else t.grid[r][c]
    decreases |s|
  {
    hide GlyphOf;
    if s != [] { Overwrites(info, font, Typed(info, font, t, s[0]), s[1..]); }
  }
}
