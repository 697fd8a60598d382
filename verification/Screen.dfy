/** The framebuffer as the drawing of a character grid: what each byte of the buffer shows
    (console.rs). */
module Screen {
  import opened Core

  const SCALE: nat := 2
  const CELL: nat := 16

  datatype Format = Rgb | Bgr | Other

  /** Lines of `stride` pixels, of which `width` are visible. */
  datatype Info = Info(width: nat, height: nat, stride: nat, bpp: nat, format: Format)
  {
    /** What the driver's arithmetic demands of the bootloader's description. */
    predicate Usable(len: nat) {
      && width >= CELL && height >= CELL && stride >= width
      && bpp >= (if format.Other? then 1 else 3)
      && len >= height * stride * bpp
    }

    function Cols(): nat {
      width / CELL
    }

    function Rows(): nat {
      height / CELL
    }
  }

  /** The cells fill the screen but for less than one in either direction. */
  lemma CellsFill(info: Info)
    ensures info.Cols() * CELL <= info.width < info.Cols() * CELL + CELL
    ensures info.Rows() * CELL <= info.height < info.Rows() * CELL + CELL
  {
  }

  // --- colours ---

  function Channel(color: nat, shift: nat): nat
    requires shift > 0
  {
    color / shift % 256
  }

  function Max(a: nat, b: nat): (r: nat)
    ensures r >= a && r >= b && (r == a || r == b)
  {
    if a > b then a else b
  }

  /** The byte a pixel's channel gets; channels past the format's are never written. */
  function ColorByte(f: Format, color: nat, ch: nat): Option<nat> {
    var r, g, b := Channel(color, 65536), Channel(color, 256), Channel(color, 1);
    match f
    case Rgb => if ch == 0 then Some(r) else if ch == 1 then Some(g) else if ch == 2 then Some(b) else None
    case Bgr => if ch == 0 then Some(b) else if ch == 1 then Some(g) else if ch == 2 then Some(r) else None
    case Other => if ch == 0 then Some(Max(Max(r, g), b)) else None
  }

  /** A 24-bit colour is its three bytes, red highest; a format writes them in its order, or only the
      brightest, and nothing past them. */
  lemma ThreeBytes(r: nat, g: nat, b: nat, ch: nat)
    requires r < 256 && g < 256 && b < 256
    ensures var color := r * 65536 + g * 256 + b;
            && Channel(color, 65536) == r && Channel(color, 256) == g && Channel(color, 1) == b
            && ColorByte(Rgb, color, ch) == (if ch < 3 then Some([r, g, b][ch]) else None)
            && ColorByte(Bgr, color, ch) == (if ch < 3 then Some([b, g, r][ch]) else None)
            && (ch == 0 ==> ColorByte(Other, color, ch).Some? && ColorByte(Other, color, ch).value in {r, g, b})
            && (ch == 0 ==> var v := ColorByte(Other, color, ch).value; v >= r && v >= g && v >= b)
            && (ch > 0 ==> ColorByte(Other, color, ch) == None)
  {
  }

  lemma BlackIsZero(f: Format, ch: nat)
    ensures ColorByte(f, 0, ch).Some? ==> ColorByte(f, 0, ch).value == 0
  {
  }

  // --- glyphs and grids ---

  /** Eight rows of eight bits, the lowest leftmost. */
  type Glyph = seq<bv8>

  const BLANK: Glyph := [0, 0, 0, 0, 0, 0, 0, 0]

  predicate Dot(g: Glyph, x: nat, y: nat) {
    x < 8 && y < |g| && g[y] & (1 << x) != 0
  }

  /** The bits of a row from the lowest on are its dots from the left. */
  lemma DotsFromTheLeft(b: bv8)
    ensures (Dot([b], 0, 0) <==> b & 0x01 != 0) && (Dot([b], 1, 0) <==> b & 0x02 != 0)
    ensures (Dot([b], 2, 0) <==> b & 0x04 != 0) && (Dot([b], 3, 0) <==> b & 0x08 != 0)
    ensures (Dot([b], 4, 0) <==> b & 0x10 != 0) && (Dot([b], 5, 0) <==> b & 0x20 != 0)
    ensures (Dot([b], 6, 0) <==> b & 0x40 != 0) && (Dot([b], 7, 0) <==> b & 0x80 != 0)
  {
    assert 1 as bv8 << 0 == 0x01 && 1 as bv8 << 1 == 0x02 && 1 as bv8 << 2 == 0x04 && 1 as bv8 << 3 == 0x08;
    assert 1 as bv8 << 4 == 0x10 && 1 as bv8 << 5 == 0x20 && 1 as bv8 << 6 == 0x40 && 1 as bv8 << 7 == 0x80;
  }

  lemma BlankIsDark(x: nat, y: nat)
    ensures !Dot(BLANK, x, y)
  {
  }

  type Grid = seq<seq<Glyph>>

  predicate Shape(info: Info, grid: Grid) {
    |grid| == info.Rows() && forall r :: 0 <= r < |grid| ==> |grid[r]| == info.Cols()
  }

  function BlankRow(info: Info): seq<Glyph> {
    seq(info.Cols(), i => BLANK)
  }

  function BlankGrid(info: Info): (g: Grid)
    ensures Shape(info, g)
  {
    seq(info.Rows(), i => BlankRow(info))
  }

  /** Is the pixel lit: does its cell's glyph have its dot? */
  predicate Lit(info: Info, grid: Grid, y: nat, x: nat)
    requires Shape(info, grid)
  {
    && y / CELL < info.Rows() && x / CELL < info.Cols()
    && Dot(grid[y / CELL][x / CELL], x % CELL / SCALE, y % CELL / SCALE)
  }

  /** What the byte of a channel of a pixel shows. */
  function Shown(info: Info, fg: nat, grid: Grid, y: nat, x: nat, ch: nat): nat
    requires Shape(info, grid)
  {
    if Lit(info, grid, y, x) && ColorByte(info.format, fg, ch).Some? then ColorByte(info.format, fg, ch).value else 0
  }

  // --- bytes and pixels ---

  function Index(info: Info, y: nat, x: nat, ch: nat): nat {
    (y * info.stride + x) * info.bpp + ch
  }

  /** A channel of a pixel that has a byte in a buffer of `len` bytes. */
  predicate Place(info: Info, len: nat, y: nat, x: nat, ch: nat) {
    x < info.stride && ch < info.bpp && Index(info, y, x, ch) < len
  }

  lemma Mono(a: nat, b: nat, d: nat)
    requires a <= b
    ensures a * d <= b * d
  {
  }

  lemma Below(q: nat, r: nat, q': nat, d: nat)
    requires q < q' && r < d
    ensures q * d + r < q * d + d <= q' * d
  {
    Mono(q + 1, q', d);
    assert (q + 1) * d == q * d + d;
  }

  lemma Euclid(q: nat, r: nat, q': nat, r': nat, d: nat)
    requires r < d && r' < d && q * d + r == q' * d + r'
    ensures q == q' && r == r'
  {
    if q < q' { Below(q, r, q', d); } else if q' < q { Below(q', r', q, d); }
  }

  /** No two pixels share a byte. */
  lemma PlacesApart(info: Info, y: nat, x: nat, ch: nat, y': nat, x': nat, ch': nat)
    requires x < info.stride && x' < info.stride && ch < info.bpp && ch' < info.bpp
    requires Index(info, y, x, ch) == Index(info, y', x', ch')
    ensures y == y' && x == x' && ch == ch'
  {
    var p, p' := y * info.stride + x, y' * info.stride + x';
    Euclid(p, ch, p', ch', info.bpp);
    Euclid(y, x, y', x', info.stride);
  }

  /** Every byte is some pixel's. */
  lemma EveryBytePlaced(info: Info, len: nat, k: nat) returns (y: nat, x: nat, ch: nat)
    requires info.stride > 0 && info.bpp > 0 && k < len
    ensures Place(info, len, y, x, ch) && Index(info, y, x, ch) == k
  {
    var p := k / info.bpp;
    ch := k % info.bpp;
    y, x := p / info.stride, p % info.stride;
    assert p == y * info.stride + x;
  }

  /** A visible pixel has its bytes. */
  lemma VisiblePlaced(info: Info, len: nat, y: nat, x: nat, ch: nat)
    requires info.Usable(len) && y < info.height && x < info.width && ch < info.bpp
    ensures Place(info, len, y, x, ch) && Index(info, y, x, 0) + info.bpp <= len
  {
    var p, all := y * info.stride + x, info.height * info.stride;
    Below(y, x, info.height, info.stride);
    Below(p, ch, all, info.bpp);
  }

  /** The buffer is the drawing of the grid, and zero wherever nothing is drawn. */
  ghost predicate Drawn(info: Info, fg: nat, grid: Grid, b: seq<nat>)
    requires Shape(info, grid)
  {
    forall y: nat, x: nat, ch: nat :: Place(info, |b|, y, x, ch) ==> b[Index(info, y, x, ch)] == Shown(info, fg, grid, y, x, ch)
  }

  lemma ZeroIsBlank(info: Info, fg: nat, b: seq<nat>)
    requires forall k :: 0 <= k < |b| ==> b[k] == 0
    ensures Drawn(info, fg, BlankGrid(info), b)
  {
    hide Index;
    forall y: nat, x: nat ensures !Lit(info, BlankGrid(info), y, x) {
      BlankIsDark(x % CELL / SCALE, y % CELL / SCALE);
    }
  }

  // --- scrolling ---

  function RowBytes(info: Info): nat {
    CELL * info.stride * info.bpp
  }

  /** The buffer moved up by a text row and the rest zeroed. */
  function Shifted(b: seq<nat>, n: nat): (r: seq<nat>)
    requires n <= |b|
    ensures |r| == |b|
    ensures forall k :: 0 <= k < |b| ==> r[k] == if k + n < |b| then b[k + n] else 0
  {
    b[n..] + seq(n, i => 0)
  }

  function Dropped(info: Info, grid: Grid): (r: Grid)
    requires Shape(info, grid) && grid != []
    ensures Shape(info, r)
  {
    grid[1..] + [BlankRow(info)]
  }

  lemma RowBelow(info: Info, y: nat, x: nat, ch: nat)
    ensures Index(info, y + CELL, x, ch) == Index(info, y, x, ch) + RowBytes(info)
  {
    assert (y + CELL) * info.stride == y * info.stride + CELL * info.stride;
    assert (y * info.stride + x + CELL * info.stride) * info.bpp == (y * info.stride + x) * info.bpp + CELL * info.stride * info.bpp;
  }

  lemma LitBelow(info: Info, grid: Grid, y: nat, x: nat)
    requires Shape(info, grid) && grid != []
    ensures Lit(info, Dropped(info, grid), y, x) <==> Lit(info, grid, y + CELL, x)
  {
    assert (y + CELL) / CELL == y / CELL + 1 && (y + CELL) % CELL == y % CELL;
    BlankIsDark(x % CELL / SCALE, y % CELL / SCALE);
    if y / CELL < info.Rows() && x / CELL < info.Cols() {
      if y / CELL + 1 < info.Rows() {
        assert Dropped(info, grid)[y / CELL] == grid[y / CELL + 1];
      } else {
        assert Dropped(info, grid)[y / CELL] == BlankRow(info);
      }
    }
  }

  lemma LitIsVisible(info: Info, grid: Grid, y: nat, x: nat)
    requires Shape(info, grid) && Lit(info, grid, y, x)
    ensures y < info.height && x < info.width
  {
    hide Dot;
    assert y < CELL * (y / CELL + 1) <= CELL * info.Rows() <= info.height;
    assert x < CELL * (x / CELL + 1) <= CELL * info.Cols() <= info.width;
  }

  /** Below a buffer that holds every visible line there is nothing lit. */
  lemma DarkPastEnd(info: Info, grid: Grid, len: nat, y: nat, x: nat, ch: nat)
    requires info.Usable(len) && Shape(info, grid) && x < info.stride && ch < info.bpp && Index(info, y, x, ch) >= len
    ensures !Lit(info, grid, y, x)
  {
    hide Lit;
    if y < info.height && x < info.width { VisiblePlaced(info, len, y, x, ch); }
    if Lit(info, grid, y, x) { LitIsVisible(info, grid, y, x); }
  }

  /** Moving the bytes up by a text row is dropping the top row of the grid, whatever the stride
      and even if the height is no multiple of the cell. */
  lemma ShiftDropsRow(info: Info, fg: nat, grid: Grid, b: seq<nat>)
    requires info.Usable(|b|) && Shape(info, grid) && grid != [] && Drawn(info, fg, grid, b) && RowBytes(info) <= |b|
    ensures Drawn(info, fg, Dropped(info, grid), Shifted(b, RowBytes(info)))
  {
    hide Lit, Index, RowBytes, ColorByte;
    forall y: nat, x: nat, ch: nat | Place(info, |b|, y, x, ch)
      ensures Shifted(b, RowBytes(info))[Index(info, y, x, ch)] == Shown(info, fg, Dropped(info, grid), y, x, ch)
    {
      RowBelow(info, y, x, ch);
      LitBelow(info, grid, y, x);
      if Index(info, y, x, ch) + RowBytes(info) >= |b| { DarkPastEnd(info, grid, |b|, y + CELL, x, ch); }
    }
  }

  lemma RowFits(info: Info, len: nat)
    requires info.Usable(len)
    ensures RowBytes(info) <= len && info.Rows() > 0 && info.Cols() > 0
  {
    assert CELL * info.stride <= info.height * info.stride;
    assert CELL * info.stride * info.bpp <= info.height * info.stride * info.bpp;
  }
}
