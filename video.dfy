/**
 * The ASCII-video compositor: how a decoded RGB24 raster becomes a frame of
 * coloured glyphs, how the compositor keeps the latest frame, and how it
 * draws that frame, centred, clipped and dimmed, into the terminal buffer.
 */
module Video {
  import opened Wrappers
  import opened Numeric

  type Byte = x: int | 0 <= x < 0x100
  type U16 = x: int | 0 <= x < 0x1_0000

  /** The glyph palette, from visually light (the space) to visually dense. */
  const Palette: string := " " + ".'`^\",:;Il!i><~+_-?][}{1)(|\\tfjrxnuvczXYUJCLQ0OZmwqpdbkhao*#MW&8%B@$"

  /** Capacity of the bounded channel from the decode worker to the compositor. */
  const ChannelCapacity: nat := 8

  /** The `as u16` cast: keeps the low 16 bits. */
  function AsU16(n: nat): (m: U16)
    ensures n < 0x1_0000 ==> m == n
  {
    n % 0x1_0000
  }

  // ---------------------------------------------------------------------
  // Brightness to glyph
  // ---------------------------------------------------------------------

  /**
   * Perceived brightness 0.299 r + 0.587 g + 0.114 b, truncated toward zero
   * as the cast to u8 does (never rounded), computed exactly over the
   * rationals. Being a weighted mean it lies between the darkest and the
   * brightest channel.
   */
  function Luminance(r: Byte, g: Byte, b: Byte): (y: Byte)
    ensures Min(r, Min(g, b)) <= y <= Max(r, Max(g, b))
  {
    (299 * r + 587 * g + 114 * b) / 1000
  }

  /** Palette index for a brightness: y * (P - 1) / 255 in integer arithmetic. */
  function AsciiIndex(y: Byte): (idx: nat)
    ensures idx < |Palette|
    ensures y == 0 ==> idx == 0
    ensures y == 255 ==> idx == |Palette| - 1
  {
    y * (|Palette| - 1) / 255
  }

  /** The glyph drawn for a pixel. */
  function AsciiFor(r: Byte, g: Byte, b: Byte): char
  {
    Palette[AsciiIndex(Luminance(r, g, b))]
  }

  // ---------------------------------------------------------------------
  // Raster to frame
  // ---------------------------------------------------------------------

  /** One glyph with the original colour of its pixel. */
  datatype Cell = Cell(ch: char, r: Byte, g: Byte, b: Byte)

  /** A converted frame: `h` rows of `w` cells, in row-major order. */
  datatype AsciiFrame = AsciiFrame(w: U16, h: U16, cells: seq<Cell>)
  {
    predicate WellFormed()
    {
      |cells| == h * w
    }
  }

  /** Where element x of row y sits when rows of `w` elements are laid one after the other. */
  function RowMajor(w: nat, y: nat, x: nat): nat
  {
    y * w + x
  }

  /** A packed RGB24 raster as the rescaler leaves it: row y starts at byte y * stride. */
  datatype Raster = Raster(width: nat, height: nat, stride: nat, data: seq<Byte>)
  {
    /** Every row's 3 * width bytes lie inside the plane. */
    predicate Covered()
    {
      height == 0 || (height - 1) * stride + 3 * width <= |data|
    }
  }

  /** The cell for the pixel whose three bytes start at `off`. */
  function PixelCell(data: seq<Byte>, off: nat): Cell
    requires off + 3 <= |data|
  {
    var (r, g, b) := (data[off], data[off + 1], data[off + 2]);
    Cell(AsciiFor(r, g, b), r, g, b)
  }

  /** The first `n` cells of the row whose bytes start at `off`: cell x is the pixel at off + 3 * x. */
  function RowCells(data: seq<Byte>, off: nat, n: nat): (row: seq<Cell>)
    requires off + 3 * n <= |data|
    ensures |row| == n
  {
    seq(n, x requires 0 <= x < n => PixelCell(data, off + 3 * x))
  }

  /** Converting a row from its own slice or from the whole plane gives the same cells. */
  lemma RowCellsOfSlice(data: seq<Byte>, off: nat, n: nat)
    requires off + 3 * n <= |data|
    ensures RowCells(data[off..off + n * 3], 0, n) == RowCells(data, off, n)
  {
    var slice := data[off..off + n * 3];
    forall x | 0 <= x < n
      ensures RowCells(slice, 0, n)[x] == RowCells(data, off, n)[x]
    {
      assert slice[3 * x] == data[off + 3 * x];
      assert slice[3 * x + 1] == data[off + 3 * x + 1];
      assert slice[3 * x + 2] == data[off + 3 * x + 2];
    }
  }

  /** Row y of a covered raster lies inside the plane. */
  lemma RowInside(rs: Raster, y: nat)
    requires rs.Covered() && y < rs.height
    ensures y * rs.stride + 3 * rs.width <= |rs.data|
  {
    MulLeq(y, rs.height - 1, rs.stride);
  }

  /** The cells of row y of a raster. */
  function RasterRow(rs: Raster, y: nat): (row: seq<Cell>)
    requires rs.Covered() && y < rs.height
    ensures |row| == rs.width
  {
    RowInside(rs, y);
    RowCells(rs.data, y * rs.stride, rs.width)
  }

  /** The rows of cells of a raster, top to bottom. */
  function Rows(rs: Raster): (rows: seq<seq<Cell>>)
    requires rs.Covered()
    ensures |rows| == rs.height
  {
    seq(rs.height, y requires 0 <= y < rs.height => RasterRow(rs, y))
  }

  /** Rows laid one after the other. */
  function Flatten<T>(rows: seq<seq<T>>): seq<T>
  {
    if rows == [] then [] else Flatten(rows[..|rows| - 1]) + rows[|rows| - 1]
  }

  /** Rows of `w` elements each flatten to |rows| * w elements. */
  lemma {:induction false} FlattenLength<T>(rows: seq<seq<T>>, w: nat)
    requires forall i :: 0 <= i < |rows| ==> |rows[i]| == w
    ensures |Flatten(rows)| == |rows| * w
  {
    if rows != [] {
      FlattenLength(rows[..|rows| - 1], w);
      assert (|rows| - 1) * w + w == |rows| * w;
    }
  }

  /** In rows of `w` elements each, element x of row y sits at y * w + x of the flattening. */
  lemma {:induction false} FlattenIndex<T>(rows: seq<seq<T>>, w: nat, y: nat, x: nat)
    requires forall i :: 0 <= i < |rows| ==> |rows[i]| == w
    requires y < |rows| && x < w
    ensures y * w + x < |Flatten(rows)| && Flatten(rows)[y * w + x] == rows[y][x]
  {
    var init, last := rows[..|rows| - 1], rows[|rows| - 1];
    FlattenLength(init, w);
    if y < |rows| - 1 {
      FlattenIndex(init, w, y, x);
      MulLeq(y + 1, |rows| - 1, w);
      assert (y + 1) * w == y * w + w;
    } else {
      assert (Flatten(init) + last)[|Flatten(init)| + x] == last[x];
    }
  }

  /** Flattening one more row appends it. */
  lemma FlattenNext<T>(rows: seq<seq<T>>, y: nat)
    requires y < |rows|
    ensures Flatten(rows[..y + 1]) == Flatten(rows[..y]) + rows[y]
  {
    assert rows[..y + 1][..y] == rows[..y];
  }

  /** The converted frame's cells: the raster's rows, row after row. */
  function FrameCells(rs: Raster): seq<Cell>
    requires rs.Covered()
  {
    Flatten(Rows(rs))
  }

  /** Convert the first `n` pixels of a row slice, left to right. */
  method ConvertRow(row: seq<Byte>, n: nat) returns (cells: seq<Cell>)
    requires 3 * n <= |row|
    ensures cells == RowCells(row, 0, n)
  {
    cells := [];
    var x := 0;
    while x < n
      invariant x <= n && |cells| == x
      invariant forall j :: 0 <= j < x ==> cells[j] == PixelCell(row, 3 * j)
    {
      var i := x * 3;
      var (r, g, b) := (row[i], row[i + 1], row[i + 2]);
      var ch := AsciiFor(r, g, b);
      cells := cells + [Cell(ch, r, g, b)];
      x := x + 1;
    }
  }

  /**
   * Convert a raster into a frame, row by row and pixel by pixel. The
   * dimensions are stored through the cast to u16.
   */
  method ToAsciiFrame(rs: Raster) returns (af: AsciiFrame)
    requires rs.Covered()
    ensures af.w == AsU16(rs.width) && af.h == AsU16(rs.height)
    ensures af.cells == FrameCells(rs)
    ensures rs.width < 0x1_0000 && rs.height < 0x1_0000 ==> af.WellFormed()
  {
    ghost var rows := Rows(rs);
    var cells: seq<Cell> := [];
    var y := 0;
    while y < rs.height
      invariant y <= rs.height
      invariant cells == Flatten(rows[..y])
    {
      RowInside(rs, y);
      var rowStart := y * rs.stride;
      var row := rs.data[rowStart..rowStart + rs.width * 3];
      var rowCells := ConvertRow(row, rs.width);
      RowCellsOfSlice(rs.data, rowStart, rs.width);
      FlattenNext(rows, y);
      cells := cells + rowCells;
      y := y + 1;
    }
    assert rows[..rs.height] == rows;
    FlattenLength(rows, rs.width);
    af := AsciiFrame(AsU16(rs.width), AsU16(rs.height), cells);
  }

  // ---------------------------------------------------------------------
  // Opacity
  // ---------------------------------------------------------------------

  /** The opacity given at construction, clamped into [0, 1]. */
  function ClampOpacity(o: real): (c: real)
    ensures 0.0 <= c <= 1.0
    ensures 0.0 <= o <= 1.0 ==> c == o
    ensures o < 0.0 ==> c == 0.0
    ensures 1.0 < o ==> c == 1.0
  {
    if o < 0.0 then 0.0 else if 1.0 < o then 1.0 else o
  }

  lemma ScaleDown(c: real, o: real)
    requires 0.0 <= c && 0.0 <= o <= 1.0
    ensures 0.0 <= c * o <= c
  {
  }

  /** Truncating a real in [0, hi] gives an integer in [0, hi]. */
  lemma FloorBetween(x: real, hi: nat)
    requires 0.0 <= x <= hi as real
    ensures 0 <= x.Floor <= hi
  {
    assert x.Floor as real <= x < x.Floor as real + 1.0;
  }

  /** One colour channel blended toward black: c * opacity, truncated. */
  function Dim(c: Byte, opacity: real): (d: Byte)
    requires 0.0 <= opacity <= 1.0
    ensures d <= c
    ensures opacity == 1.0 ==> d == c
    ensures opacity == 0.0 ==> d == 0
  {
    var scaled := c as real * opacity;
    ScaleDown(c as real, opacity);
    FloorBetween(scaled, c);
    scaled.Floor
  }

  // ---------------------------------------------------------------------
  // The terminal buffer
  // ---------------------------------------------------------------------

  /** A terminal rectangle; its right and bottom edges fit in a u16. */
  datatype Rect = Rect(x: U16, y: U16, width: U16, height: U16)
  {
    predicate Valid()
    {
      x + width < 0x1_0000 && y + height < 0x1_0000
    }

    predicate Contains(px: int, py: int)
    {
      x <= px < x + width && y <= py < y + height
    }
  }

  datatype Color = Reset | Rgb(r: Byte, g: Byte, b: Byte)

  /** A terminal cell: its glyph, its foreground and its background colour. */
  datatype TermCell = TermCell(symbol: char, fg: Color, bg: Color)

  /**
   * The terminal buffer: one cell per position of `area`, the cell of
   * position (px, py) at content[py - area.y, px - area.x].
   */
  class Buffer {
    const area: Rect
    const content: array2<TermCell>

    ghost predicate Valid()
      reads this
    {
      content.Length0 == area.height && content.Length1 == area.width
    }

    constructor (area: Rect, blank: TermCell)
      ensures Valid() && this.area == area && fresh(content)
      ensures forall r, c :: 0 <= r < content.Length0 && 0 <= c < content.Length1 ==> content[r, c] == blank
    {
      this.area := area;
      content := new TermCell[area.height, area.width]((r, c) => blank);
    }
  }

  // ---------------------------------------------------------------------
  // Drawing, as a function of the position
  // ---------------------------------------------------------------------

  /** Where a frame lands in an area: top-left corner and clipped size. */
  datatype Placement = Placement(x0: int, y0: int, w: nat, h: nat)
  {
    predicate Contains(px: int, py: int)
    {
      x0 <= px < x0 + w && y0 <= py < y0 + h
    }
  }

  /**
   * The drawn rectangle: the frame clipped to the area and centred in it,
   * the odd column or row of slack going to the right or bottom.
   */
  function Place(af: AsciiFrame, area: Rect): (p: Placement)
    ensures p.w == Min(af.w, area.width) && p.h == Min(af.h, area.height)
    ensures area.x <= p.x0 && p.x0 + p.w <= area.x + area.width
    ensures area.y <= p.y0 && p.y0 + p.h <= area.y + area.height
    ensures p.x0 - area.x <= area.x + area.width - (p.x0 + p.w) <= p.x0 - area.x + 1
    ensures p.y0 - area.y <= area.y + area.height - (p.y0 + p.h) <= p.y0 - area.y + 1
  {
    var contentW := Min(af.w, area.width);
    var contentH := Min(af.h, area.height);
    Placement(area.x + (area.width - contentW) / 2, area.y + (area.height - contentH) / 2, contentW, contentH)
  }

  /**
   * The frame cell drawn at terminal position (px, py), if any: none outside
   * the drawn rectangle, none where the row-major index passes the end of
   * the cells.
   */
  function CellAt(af: AsciiFrame, area: Rect, px: int, py: int): (c: Option<Cell>)
    ensures c.Some? ==> Place(af, area).Contains(px, py)
    ensures c.Some? ==> c.value in af.cells
  {
    var p := Place(af, area);
    if p.Contains(px, py) then
      var i := RowMajor(af.w, py - p.y0, px - p.x0);
      if i < |af.cells| then Some(af.cells[i]) else None
    else
      None
  }

  /** A terminal cell after a frame cell is drawn on it: its glyph and dimmed colour. */
  function Paint(before: TermCell, c: Cell, opacity: real): TermCell
    requires 0.0 <= opacity <= 1.0
  {
    before.(symbol := c.ch, fg := Rgb(Dim(c.r, opacity), Dim(c.g, opacity), Dim(c.b, opacity)))
  }

  /** The cell at terminal position (px, py) after drawing, given the cell before. */
  function Rendered(latest: Option<AsciiFrame>, opacity: real, area: Rect, px: int, py: int, before: TermCell): (after: TermCell)
    requires 0.0 <= opacity <= 1.0
    ensures latest.None? ==> after == before
    ensures latest.Some? && !Place(latest.value, area).Contains(px, py) ==> after == before
    ensures after.bg == before.bg
  {
    match latest
    case None => before
    case Some(af) =>
      match CellAt(af, area, px, py)
      case None => before
      case Some(c) => Paint(before, c, opacity)
  }

  // ---------------------------------------------------------------------
  // The compositor
  // ---------------------------------------------------------------------

  class VideoBackground {
    /** Frames the decode worker has sent and the compositor has not yet received. */
    var queue: seq<AsciiFrame>
    /** The frame received last; redrawn on every tick until a newer one arrives. */
    var latest: Option<AsciiFrame>
    const opacity: real

    ghost predicate Valid()
      reads this
    {
      |queue| <= ChannelCapacity && 0.0 <= opacity <= 1.0
    }

    constructor (opacity: real)
      ensures Valid()
      ensures this.opacity == ClampOpacity(opacity)
      ensures queue == [] && latest == None
    {
      this.opacity := ClampOpacity(opacity);
      queue := [];
      latest := None;
    }

    /**
     * The worker's send into the bounded channel: accepted while the channel
     * has room; when it is full the worker stays blocked and nothing is queued.
     */
    method Publish(af: AsciiFrame) returns (sent: bool)
      requires Valid()
      modifies this`queue
      ensures Valid()
      ensures sent <==> |old(queue)| < ChannelCapacity
      ensures queue == if sent then old(queue) + [af] else old(queue)
    {
      sent := |queue| < ChannelCapacity;
      if sent {
        queue := queue + [af];
      }
    }

    /** Receive at most one frame, without blocking, and keep it as the latest. */
    method Update()
      requires Valid()
      modifies this`queue, this`latest
      ensures Valid()
      ensures old(queue) == [] ==> queue == [] && latest == old(latest)
      ensures old(queue) != [] ==> latest == Some(old(queue)[0]) && queue == old(queue)[1..]
    {
      if queue != [] {
        latest := Some(queue[0]);
        queue := queue[1..];
      }
    }

    /**
     * Draw the latest frame into the buffer, centred in `area` and clipped to
     * it; every buffer cell ends up as `Rendered` says, all others untouched.
     */
    method RenderBackground(buf: Buffer, area: Rect)
      requires Valid() && buf.Valid() && area.Valid()
      modifies buf.content
      ensures forall r, c :: 0 <= r < buf.content.Length0 && 0 <= c < buf.content.Length1 ==>
        buf.content[r, c] == Rendered(latest, opacity, area, buf.area.x + c, buf.area.y + r, old(buf.content[r, c]))
    {
      match latest {
        case None =>
        case Some(af) =>
          var contentW := Min(af.w, area.width);
          var contentH := Min(af.h, area.height);
          var slackW: U16 := area.width - contentW;
          var slackH: U16 := area.height - contentH;
          var x0: U16 := area.x + slackW / 2;
          var y0: U16 := area.y + slackH / 2;
          assert Place(af, area) == Placement(x0, y0, contentW, contentH);
          var y := 0;
          while y < contentH
            invariant 0 <= y <= contentH
            invariant forall r, c :: 0 <= r < buf.content.Length0 && 0 <= c < buf.content.Length1 ==>
              buf.content[r, c] ==
                if buf.area.y + r < y0 + y
                then Rendered(latest, opacity, area, buf.area.x + c, buf.area.y + r, old(buf.content[r, c]))
                else old(buf.content[r, c])
          {
            DrawRow(buf, area, af, x0, y0, y);
            y := y + 1;
          }
      }
    }

    /** Draw row `y` of the drawn rectangle, which starts at (x0, y0). */
    method DrawRow(buf: Buffer, area: Rect, af: AsciiFrame, x0: U16, y0: U16, y: nat)
      requires Valid() && buf.Valid() && area.Valid()
      requires latest == Some(af)
      requires Place(af, area) == Placement(x0, y0, Min(af.w, area.width), Min(af.h, area.height))
      requires y < Min(af.h, area.height)
      modifies buf.content
      ensures forall r, c :: 0 <= r < buf.content.Length0 && 0 <= c < buf.content.Length1 ==>
        buf.content[r, c] ==
          if buf.area.y + r == y0 + y
          then Rendered(latest, opacity, area, buf.area.x + c, buf.area.y + r, old(buf.content[r, c]))
          else old(buf.content[r, c])
    {
      var contentW := Min(af.w, area.width);
      var x := 0;
      while x < contentW
        invariant 0 <= x <= contentW
        invariant forall r, c :: 0 <= r < buf.content.Length0 && 0 <= c < buf.content.Length1 ==>
          buf.content[r, c] ==
            if buf.area.y + r == y0 + y && buf.area.x + c < x0 + x
            then Rendered(latest, opacity, area, buf.area.x + c, buf.area.y + r, old(buf.content[r, c]))
            else old(buf.content[r, c])
      {
        var i := RowMajor(af.w, y, x);
        if i < |af.cells| {
          var cell := af.cells[i];
          var px: U16 := x0 + x;
          var py: U16 := y0 + y;
          if buf.area.Contains(px, py) {
            var before := buf.content[py - buf.area.y, px - buf.area.x];
            RenderedInside(af, opacity, area, x, y, before);
            buf.content[py - buf.area.y, px - buf.area.x] := Paint(before, cell, opacity);
          }
        }
        x := x + 1;
      }
    }
  }

  /** The cell drawn at offset (x, y) of the drawn rectangle is frame cell y * w + x, if there is one. */
  lemma RenderedInside(af: AsciiFrame, opacity: real, area: Rect, x: nat, y: nat, before: TermCell)
    requires 0.0 <= opacity <= 1.0
    requires x < Place(af, area).w && y < Place(af, area).h
    ensures var p := Place(af, area);
      Rendered(Some(af), opacity, area, p.x0 + x, p.y0 + y, before) ==
        var i := RowMajor(af.w, y, x);
        if i < |af.cells| then Paint(before, af.cells[i], opacity) else before
  {
  }
}
