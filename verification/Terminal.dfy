/** The console: characters drawn as glyphs into the framebuffer, with a cursor and scrolling
    (console.rs). Every method's effect on the bytes is the drawing of its effect on a grid. */
module Terminal {
  import opened Core
  import opened Screen

  // --- the console as a character grid ---

  datatype Term = Term(grid: Grid, col: nat, row: nat)

  type Font = map<char, Glyph>

  const BACKSPACE: char := 8 as char

  /** The font's glyph, or its question mark, or nothing. */
  function GlyphOf(font: Font, c: char): Glyph {
    if c in font then font[c] else if '?' in font then font['?'] else BLANK
  }

  predicate TermOk(info: Info, t: Term) {
    Shape(info, t.grid) && t.col <= info.Cols() && t.row < info.Rows()
  }

  function Put(info: Info, grid: Grid, row: nat, col: nat, g: Glyph): (r: Grid)
    requires Shape(info, grid) && row < info.Rows() && col < info.Cols()
    ensures Shape(info, r)
  {
    grid[row := grid[row][col := g]]
  }

  function NewLine(info: Info, t: Term): (r: Term)
    requires TermOk(info, t)
    ensures TermOk(info, r) && r.col == 0
  {
    if t.row + 1 >= info.Rows() then Term(Dropped(info, t.grid), 0, info.Rows() - 1)
    else Term(t.grid, 0, t.row + 1)
  }

  function Typed(info: Info, font: Font, t: Term, c: char): (r: Term)
    requires TermOk(info, t) && info.Cols() > 0
    ensures TermOk(info, r)
  {
    if c == '\n' then NewLine(info, t)
    else if c == '\r' then t.(col := 0)
    else if c == BACKSPACE then
      if t.col > 0 then Term(Put(info, t.grid, t.row, t.col - 1, BLANK), t.col - 1, t.row) else t
    else
      var t1 := if t.col >= info.Cols() then NewLine(info, t) else t;
      Term(Put(info, t1.grid, t1.row, t1.col, GlyphOf(font, c)), t1.col + 1, t1.row)
  }

  function Written(info: Info, font: Font, t: Term, s: string): (r: Term)
    requires TermOk(info, t) && info.Cols() > 0
    ensures TermOk(info, r)
    decreases |s|
  {
    if s == [] then t else Written(info, font, Typed(info, font, t, s[0]), s[1..])
  }

  // --- painting pixels ---

  /** The pixel is one of a dot's painted before row `dy`, column `dx` of it. */
  predicate InDot(y0: nat, x0: nat, dy: nat, dx: nat, y: nat, x: nat) {
    y0 <= y < y0 + SCALE && x0 <= x < x0 + SCALE && (y - y0 < dy || (y - y0 == dy && x - x0 < dx))
  }

  ghost predicate Painted(info: Info, color: nat, was: seq<nat>, now: seq<nat>, y0: nat, x0: nat, dy: nat, dx: nat) {
    |was| == |now| &&
    forall y: nat, x: nat, ch: nat :: Place(info, |now|, y, x, ch) ==>
      now[Index(info, y, x, ch)] ==
        if InDot(y0, x0, dy, dx, y, x) && ColorByte(info.format, color, ch).Some? then ColorByte(info.format, color, ch).value
        else was[Index(info, y, x, ch)]
  }

  /** One pixel's channels, and no other byte. */
  ghost predicate PixelSet(info: Info, color: nat, was: seq<nat>, now: seq<nat>, y0: nat, x0: nat) {
    |was| == |now| &&
    forall y: nat, x: nat, ch: nat :: Place(info, |now|, y, x, ch) ==>
      now[Index(info, y, x, ch)] ==
        if y == y0 && x == x0 && ColorByte(info.format, color, ch).Some? then ColorByte(info.format, color, ch).value
        else was[Index(info, y, x, ch)]
  }

  lemma PaintedMore(info: Info, color: nat, was: seq<nat>, mid: seq<nat>, now: seq<nat>, y0: nat, x0: nat,
          dy: nat, dx: nat)
    requires dx < SCALE && dy < SCALE
    requires Painted(info, color, was, mid, y0, x0, dy, dx) && PixelSet(info, color, mid, now, y0 + dy, x0 + dx)
    ensures Painted(info, color, was, now, y0, x0, dy, dx + 1)
  {
    hide Index, ColorByte;
  }

  lemma PaintedRow(info: Info, color: nat, was: seq<nat>, now: seq<nat>, y0: nat, x0: nat, dy: nat)
    requires Painted(info, color, was, now, y0, x0, dy, SCALE)
    ensures Painted(info, color, was, now, y0, x0, dy + 1, 0)
  {
    hide Index, ColorByte;
  }

  // --- inking a glyph ---

  /** The pixel is in the cell, in a dot before row `gy`, column `gx` of the glyph. */
  predicate Inside(row: nat, col: nat, gy: nat, gx: nat, y: nat, x: nat) {
    && y / CELL == row && x / CELL == col
    && (y % CELL / SCALE < gy || (y % CELL / SCALE == gy && x % CELL / SCALE < gx))
  }

  /** The cell's dots so far show the new grid, everything else what it showed. */
  ghost predicate Inked(info: Info, fg: nat, grid: Grid, was: seq<nat>, now: seq<nat>, row: nat, col: nat,
          gy: nat, gx: nat)
    requires Shape(info, grid)
  {
    |was| == |now| &&
    forall y: nat, x: nat, ch: nat :: Place(info, |now|, y, x, ch) ==>
      now[Index(info, y, x, ch)] ==
        if Inside(row, col, gy, gx, y, x) then Shown(info, fg, grid, y, x, ch) else was[Index(info, y, x, ch)]
  }

  lemma DotInCell(row: nat, col: nat, gy: nat, gx: nat, y: nat, x: nat)
    requires gy < 8 && gx < 8
    ensures InDot(row * CELL + gy * SCALE, col * CELL + gx * SCALE, SCALE, 0, y, x)
       <==> y / CELL == row && x / CELL == col && y % CELL / SCALE == gy && x % CELL / SCALE == gx
  {
    Halves(row, gy, y);
    Halves(col, gx, x);
  }

  lemma Halves(cell: nat, g: nat, p: nat)
    requires g < 8
    ensures cell * CELL + g * SCALE <= p < cell * CELL + g * SCALE + SCALE <==> p / CELL == cell && p % CELL / SCALE == g
  {
    assert p == CELL * (p / CELL) + p % CELL;
  }

  /** One more dot: painted in the foreground if the glyph has it, else black. */
  lemma InkedMore(info: Info, fg: nat, grid: Grid, g: Glyph, was: seq<nat>, mid: seq<nat>, now: seq<nat>,
          row: nat, col: nat, gy: nat, gx: nat)
    requires Shape(info, grid) && row < info.Rows() && col < info.Cols() && gy < 8 && gx < 8
    requires Drawn(info, fg, grid, was)
    requires var grid' := Put(info, grid, row, col, g);
             Inked(info, fg, grid', was, mid, row, col, gy, gx)
    requires Painted(info, if Dot(g, gx, gy) then fg else 0, mid, now, row * CELL + gy * SCALE, col * CELL + gx * SCALE, SCALE, 0)
    ensures Inked(info, fg, Put(info, grid, row, col, g), was, now, row, col, gy, gx + 1)
  {
    hide Index, ColorByte, Dot, InDot, Put, Inside, Shown;
    var grid' := Put(info, grid, row, col, g);
    forall y: nat, x: nat, ch: nat | Place(info, |now|, y, x, ch)
      ensures now[Index(info, y, x, ch)] ==
                if Inside(row, col, gy, gx + 1, y, x) then Shown(info, fg, grid', y, x, ch) else was[Index(info, y, x, ch)]
    {
      DotInCell(row, col, gy, gx, y, x);
      InkedByte(info, fg, grid, g, row, col, gy, gx, y, x, ch);
    }
  }

  /** What painting a colour leaves in a byte: its channel's, or what was there. */
  function Inks(info: Info, fg: nat, grid: Grid, color: nat, y: nat, x: nat, ch: nat): nat
    requires Shape(info, grid)
  {
    if ColorByte(info.format, color, ch).Some? then ColorByte(info.format, color, ch).value else Shown(info, fg, grid, y, x, ch)
  }

  lemma InkedByte(info: Info, fg: nat, grid: Grid, g: Glyph, row: nat, col: nat, gy: nat, gx: nat, y: nat,
          x: nat, ch: nat)
    requires Shape(info, grid) && row < info.Rows() && col < info.Cols()
    ensures var at := y / CELL == row && x / CELL == col && y % CELL / SCALE == gy && x % CELL / SCALE == gx;
            var color := if Dot(g, gx, gy) then fg else 0;
            && (Inside(row, col, gy, gx + 1, y, x) <==> Inside(row, col, gy, gx, y, x) || at)
            && (at ==> !Inside(row, col, gy, gx, y, x))
            && (at ==> Shown(info, fg, Put(info, grid, row, col, g), y, x, ch) == Inks(info, fg, grid, color, y, x, ch))
  {
    hide Dot;
    BlackIsZero(info.format, ch);
    ColorsAlike(info.format, fg, 0, ch);
    assert y / CELL == row && x / CELL == col ==> Put(info, grid, row, col, g)[y / CELL][x / CELL] == g;
  }

  lemma ColorsAlike(f: Format, a: nat, b: nat, ch: nat)
    ensures ColorByte(f, a, ch).Some? <==> ColorByte(f, b, ch).Some?
  {
  }

  /** A glyph drawn to its last dot is the drawing of the new grid. */
  lemma InkedAll(info: Info, fg: nat, grid: Grid, g: Glyph, was: seq<nat>, now: seq<nat>, row: nat, col: nat)
    requires Shape(info, grid) && row < info.Rows() && col < info.Cols() && Drawn(info, fg, grid, was)
    requires Inked(info, fg, Put(info, grid, row, col, g), was, now, row, col, 8, 0)
    ensures Drawn(info, fg, Put(info, grid, row, col, g), now)
  {
    hide Index, ColorByte, Dot;
    forall y: nat, x: nat, ch: nat | Place(info, |now|, y, x, ch)
      ensures now[Index(info, y, x, ch)] == Shown(info, fg, Put(info, grid, row, col, g), y, x, ch)
    {
      if !Inside(row, col, 8, 0, y, x) {
        assert y % CELL / SCALE < 8;
        assert !(y / CELL == row && x / CELL == col);
        if y / CELL < info.Rows() && x / CELL < info.Cols() {
          assert Put(info, grid, row, col, g)[y / CELL][x / CELL] == grid[y / CELL][x / CELL];
        }
      }
    }
  }

  lemma InkedRow(info: Info, fg: nat, grid: Grid, was: seq<nat>, now: seq<nat>, row: nat, col: nat, gy: nat)
    requires Shape(info, grid) && Inked(info, fg, grid, was, now, row, col, gy, 8)
    ensures Inked(info, fg, grid, was, now, row, col, gy + 1, 0)
  {
    hide Index, Shown;
  }

  // --- the console as the program has it ---

  /** `copy_within` from `n` to the front, and zeros behind it. */
  method ShiftUp(b: array<nat>, n: nat)
    requires n <= b.Length
    modifies b
    ensures b[..] == Shifted(old(b[..]), n)
  {
    ghost var was := b[..];
    for k := 0 to b.Length - n
      invariant forall j :: 0 <= j < k ==> b[j] == was[j + n]
      invariant forall j :: k <= j < b.Length ==> b[j] == was[j]
    {
      b[k] := b[k + n];
    }
    for k := b.Length - n to b.Length
      invariant forall j :: 0 <= j < b.Length - n ==> b[j] == was[j + n]
      invariant forall j :: b.Length - n <= j < k ==> b[j] == 0
    {
      b[k] := 0;
    }
  }

  class Console {
    const info: Info
    const fg: nat
    const font: Font
    const buffer: array<nat>
    var col: nat
    var row: nat
    ghost var grid: Grid

    constructor (i: Info, color: nat, f: Font, b: array<nat>)
      requires i.Usable(b.Length)
      modifies b
      ensures info == i && fg == color && font == f && buffer == b && Valid()
      ensures State() == Term(BlankGrid(i), 0, 0)
    {
      info, fg, font, buffer := i, color, f, b;
      col, row, grid := 0, 0, BlankGrid(i);
      new;
      RowFits(i, b.Length);
      for k := 0 to b.Length
        invariant forall j :: 0 <= j < k ==> b[j] == 0
        invariant State() == Term(BlankGrid(i), 0, 0)
      {
        b[k] := 0;
      }
      ZeroIsBlank(i, color, b[..]);
    }

    ghost function State(): Term
      reads this
    {
      Term(grid, col, row)
    }

    /** The cursor is in bounds, and the buffer is the drawing of the grid. */
    ghost predicate Valid()
      reads this, buffer
    {
      && info.Usable(buffer.Length) && info.Cols() > 0 && TermOk(info, State())
      && Drawn(info, fg, grid, buffer[..])
    }

    method SetPixel(x: nat, y: nat, color: nat)
      requires info.Usable(buffer.Length) && x < info.width && y < info.height
      modifies buffer
      ensures PixelSet(info, color, old(buffer[..]), buffer[..], y, x)
    {
      var i := (y * info.stride + x) * info.bpp;
      VisiblePlaced(info, buffer.Length, y, x, 0);
      ghost var was := buffer[..];
      var r, g, b := Channel(color, 65536), Channel(color, 256), Channel(color, 1);
      match info.format {
        case Rgb => buffer[i], buffer[i + 1], buffer[i + 2] := r, g, b;
        case Bgr => buffer[i], buffer[i + 1], buffer[i + 2] := b, g, r;
        case Other => buffer[i] := Max(Max(r, g), b);
      }
      SetIsSet(info, color, was, buffer[..], y, x, i);
    }

    method PaintDot(x0: nat, y0: nat, color: nat)
      requires info.Usable(buffer.Length) && x0 + SCALE <= info.width && y0 + SCALE <= info.height
      modifies buffer
      ensures Painted(info, color, old(buffer[..]), buffer[..], y0, x0, SCALE, 0)
    {
      hide Painted, PixelSet;
      ghost var was := buffer[..];
      NothingPainted(info, color, was, y0, x0);
      for dy := 0 to SCALE
        invariant Painted(info, color, was, buffer[..], y0, x0, dy, 0)
      {
        for dx := 0 to SCALE
          invariant Painted(info, color, was, buffer[..], y0, x0, dy, dx)
        {
          ghost var mid := buffer[..];
          SetPixel(x0 + dx, y0 + dy, color);
          PaintedMore(info, color, was, mid, buffer[..], y0, x0, dy, dx);
        }
        PaintedRow(info, color, was, buffer[..], y0, x0, dy);
      }
    }

    method DrawGlyph(c: nat, r: nat, g: Glyph)
      requires Valid() && c < info.Cols() && r < info.Rows()
      modifies this`grid, buffer
      ensures Valid() && grid == Put(info, old(grid), r, c, g)
    {
      hide Painted, Inked, Drawn, Put, Dot;
      ghost var was := buffer[..];
      ghost var inked := Put(info, grid, r, c, g);
      NothingInked(info, fg, inked, was, r, c);
      for y := 0 to 8
        invariant grid == old(grid) && Inked(info, fg, inked, was, buffer[..], r, c, y, 0)
      {
        for x := 0 to 8
          invariant grid == old(grid) && Inked(info, fg, inked, was, buffer[..], r, c, y, x)
        {
          ghost var mid := buffer[..];
          CellFits(info, r, c, y, x);
          PaintDot(c * CELL + x * SCALE, r * CELL + y * SCALE, if Dot(g, x, y) then fg else 0);
          InkedMore(info, fg, grid, g, was, mid, buffer[..], r, c, y, x);
        }
        InkedRow(info, fg, inked, was, buffer[..], r, c, y);
      }
      InkedAll(info, fg, grid, g, was, buffer[..], r, c);
      grid := inked;
    }

    /** Move every byte up by a text row and zero the rest. */
    method Scroll()
      requires Valid()
      modifies this`grid, buffer
      ensures Valid() && grid == Dropped(info, old(grid)) && buffer[..] == Shifted(old(buffer[..]), RowBytes(info))
    {
      var n := CELL * info.stride * info.bpp;
      RowFits(info, buffer.Length);
      ghost var was := buffer[..];
      ShiftUp(buffer, n);
      ShiftDropsRow(info, fg, grid, was);
      grid := Dropped(info, grid);
    }

    method Newline()
      requires Valid()
      modifies this, buffer
      ensures Valid() && State() == NewLine(info, old(State()))
    {
      hide Drawn;
      col := 0;
      if row + 1 >= info.Rows() {
        Scroll();
        row := info.Rows() - 1;
      } else {
        row := row + 1;
      }
    }

    method PutChar(c: char)
      requires Valid()
      modifies this, buffer
      ensures Valid() && State() == Typed(info, font, old(State()), c)
    {
      hide Drawn, Put;
      if c == '\n' {
        Newline();
      } else if c == '\r' {
        col := 0;
      } else if c == BACKSPACE {
        if col > 0 {
          col := col - 1;
          DrawGlyph(col, row, BLANK);
        }
      } else {
        if col >= info.Cols() { Newline(); }
        DrawGlyph(col, row, GlyphOf(font, c));
        col := col + 1;
      }
    }

    /** Whatever is written, the cursor stays on the grid and the buffer is the drawing of the
        grid the text leads to. */
    method WriteStr(s: string)
      requires Valid()
      modifies this, buffer
      ensures Valid() && State() == Written(info, font, old(State()), s)
    {
      hide Drawn, Typed;
      for i := 0 to |s|
        invariant Valid() && Written(info, font, State(), s[i..]) == Written(info, font, old(State()), s)
      {
        assert s[i..][1..] == s[i + 1..];
        PutChar(s[i]);
      }
    }
  }

  lemma SetIsSet(info: Info, color: nat, was: seq<nat>, now: seq<nat>, y0: nat, x0: nat, i: nat)
    requires |was| == |now| && x0 < info.stride && i == Index(info, y0, x0, 0) && i + info.bpp <= |was|
    requires info.bpp >= if info.format.Other? then 1 else 3
    requires forall k :: 0 <= k < |was| ==>
               now[k] == if k >= i && ColorByte(info.format, color, k - i).Some? then ColorByte(info.format, color, k - i).value else was[k]
    ensures PixelSet(info, color, was, now, y0, x0)
  {
    forall y: nat, x: nat, ch: nat | Place(info, |now|, y, x, ch)
      ensures now[Index(info, y, x, ch)] ==
                if y == y0 && x == x0 && ColorByte(info.format, color, ch).Some? then ColorByte(info.format, color, ch).value
                else was[Index(info, y, x, ch)]
    {
      var k := Index(info, y, x, ch);
      if k >= i && ColorByte(info.format, color, k - i).Some? {
        PlacesApart(info, y, x, ch, y0, x0, k - i);
      } else if y == y0 && x == x0 {
        assert k == i + ch;
      }
    }
  }

  lemma NothingPainted(info: Info, color: nat, b: seq<nat>, y0: nat, x0: nat)
    ensures Painted(info, color, b, b, y0, x0, 0, 0)
  {
    hide Index;
  }

  lemma NothingInked(info: Info, fg: nat, grid: Grid, b: seq<nat>, row: nat, col: nat)
    requires Shape(info, grid)
    ensures Inked(info, fg, grid, b, b, row, col, 0, 0)
  {
    hide Index, Shown;
  }

  lemma CellFits(info: Info, r: nat, c: nat, y: nat, x: nat)
    requires r < info.Rows() && c < info.Cols() && y < 8 && x < 8
    ensures c * CELL + x * SCALE + SCALE <= info.width && r * CELL + y * SCALE + SCALE <= info.height
  {
  }
}
