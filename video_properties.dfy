/** What the compositor's arithmetic promises, proved of the functions of `Video`. */
module VideoProperties {
  import opened Wrappers
  import opened Numeric
  import opened Video

  /* Brightness to glyph */

  /** The palette has 69 glyphs and ends with the dollar sign. */
  lemma PaletteLength()
    ensures |Palette| == 69
    ensures Palette[|Palette| - 1] == '$'
  {
  }

  /** The palette starts with the space. */
  lemma PaletteStart()
    ensures Palette[0] == ' '
  {
  }

  /** Every pixel draws a glyph of the palette. */
  lemma GlyphInPalette(r: Byte, g: Byte, b: Byte)
    ensures AsciiFor(r, g, b) in Palette
  {
  }

  /** White draws the densest glyph, the dollar sign. */
  lemma WhiteIsDensest()
    ensures AsciiFor(255, 255, 255) == '$'
  {
    PaletteLength();
    assert Luminance(255, 255, 255) == 255;
  }

  /** Black draws the palette's first glyph, the space. */
  lemma BlackIsLightest()
    ensures AsciiFor(0, 0, 0) == ' '
  {
    PaletteStart();
  }

  /** The luminance cast truncates: a weighted sum of 0.886 gives 0, not 1. */
  lemma LuminanceTruncates()
    ensures Luminance(1, 1, 0) == 0
    ensures Luminance(0, 0, 9) == 1
  {
    LuminanceOfSum(1, 1, 0, 886);
    LuminanceOfSum(0, 0, 9, 1026);
  }

  /** The luminance is the weighted sum, in thousandths, truncated. */
  lemma LuminanceOfSum(r: Byte, g: Byte, b: Byte, sum: nat)
    requires sum == 299 * r + 587 * g + 114 * b
    ensures Luminance(r, g, b) == sum / 1000
  {
  }

  /** Integer division by a positive number keeps order. */
  lemma DivMonotone(a: nat, b: nat, d: nat)
    requires a <= b && 0 < d
    ensures a / d <= b / d
  {
    var qa, qb := a / d, b / d;
    assert qa * d <= a && b < qb * d + d;
    MulLeq(qb + 1, qa, d);
    assert (qb + 1) * d == qb * d + d;
  }

  /** A brighter pixel, channel by channel, is never darker. */
  lemma LuminanceMonotone(r1: Byte, g1: Byte, b1: Byte, r2: Byte, g2: Byte, b2: Byte)
    requires r1 <= r2 && g1 <= g2 && b1 <= b2
    ensures Luminance(r1, g1, b1) <= Luminance(r2, g2, b2)
  {
    DivMonotone(299 * r1 + 587 * g1 + 114 * b1, 299 * r2 + 587 * g2 + 114 * b2, 1000);
  }

  /** A brighter luminance never picks a lighter glyph. */
  lemma AsciiIndexMonotone(y1: Byte, y2: Byte)
    requires y1 <= y2
    ensures AsciiIndex(y1) <= AsciiIndex(y2)
  {
    DivMonotone(y1 * 68, y2 * 68, 255);
  }

  /** `n / d == k` exactly when n lies in [k * d, (k + 1) * d). */
  lemma DivBetween(n: nat, d: nat, k: nat)
    requires 0 < d && k * d <= n < k * d + d
    ensures n / d == k
  {
    var q := n / d;
    assert q * d <= n < q * d + d;
    MulLeq(q + 1, k, d);
    MulLeq(k + 1, q, d);
    assert (q + 1) * d == q * d + d;
    assert (k + 1) * d == k * d + d;
  }

  /** Every glyph of the palette is drawn for some luminance. */
  lemma AsciiIndexOnto(k: nat)
    requires k < |Palette|
    ensures exists y: Byte :: AsciiIndex(y) == k
  {
    var y := (k * 255 + 67) / 68;
    assert 68 * y <= k * 255 + 67 < 68 * y + 68;
    assert y <= 255;
    DivBetween(y * 68, 255, k);
    assert AsciiIndex(y) == k;
  }

  /* Opacity */

  /** The constructor's clamp on three sample opacities. */
  lemma ClampExamples()
    ensures ClampOpacity(1.5) == 1.0
    ensures ClampOpacity(-0.2) == 0.0
    ensures ClampOpacity(0.3) == 0.3
  {
  }

  /** Clamping a clamped opacity changes nothing. */
  lemma ClampIdempotent(o: real)
    ensures ClampOpacity(ClampOpacity(o)) == ClampOpacity(o)
  {
  }

  /** More opacity never gives a darker channel. */
  lemma DimMonotone(c: Byte, o1: real, o2: real)
    requires 0.0 <= o1 <= o2 <= 1.0
    ensures Dim(c, o1) <= Dim(c, o2)
  {
    assert c as real * o1 <= c as real * o2;
  }

  /** At half opacity a full channel is dimmed to 127, the product truncated. */
  lemma DimHalf()
    ensures Dim(255, 0.5) == 127
  {
    assert 255 as real * 0.5 == 127.5;
  }

  /* Placement */

  /** A 4 by 4 frame in a 10 by 10 area at the origin is drawn from (3, 3). */
  lemma CentreExample(cells: seq<Cell>)
    ensures Place(AsciiFrame(4, 4, cells), Rect(0, 0, 10, 10)) == Placement(3, 3, 4, 4)
  {
  }

  /** A frame larger than the area is clipped to it and drawn from its corner. */
  lemma ClipExample(cells: seq<Cell>)
    ensures Place(AsciiFrame(10, 10, cells), Rect(2, 5, 3, 3)) == Placement(2, 5, 3, 3)
  {
  }

  /**
   * In a well-formed frame the guard on the index never fires: every position
   * of the drawn rectangle shows the frame cell at its row-major offset.
   */
  lemma CellAtWellFormed(af: AsciiFrame, area: Rect, px: int, py: int)
    requires af.WellFormed()
    requires Place(af, area).Contains(px, py)
    ensures var p := Place(af, area);
      var i := RowMajor(af.w, py - p.y0, px - p.x0);
      i < |af.cells| && CellAt(af, area, px, py) == Some(af.cells[i])
  {
    var p := Place(af, area);
    var row, col := py - p.y0, px - p.x0;
    MulLeq(row + 1, af.h, af.w);
    assert (row + 1) * af.w == row * af.w + af.w;
  }

  /**
   * Drawing a frame: a cell of the drawn rectangle with a frame cell takes
   * that cell's glyph and its colour dimmed channel by channel, keeping its
   * background; every other cell is unchanged. In a well-formed frame every
   * cell of the drawn rectangle has a frame cell.
   */
  lemma DrawnCell(af: AsciiFrame, opacity: real, area: Rect, px: int, py: int, before: TermCell)
    requires 0.0 <= opacity <= 1.0
    ensures af.WellFormed() ==> (Place(af, area).Contains(px, py) <==> CellAt(af, area, px, py).Some?)
    ensures var after := Rendered(Some(af), opacity, area, px, py, before);
      match CellAt(af, area, px, py)
      case Some(c) =>
        && after.symbol == c.ch
        && after.fg == Rgb(Dim(c.r, opacity), Dim(c.g, opacity), Dim(c.b, opacity))
        && after.fg.r <= c.r && after.fg.g <= c.g && after.fg.b <= c.b
        && after.bg == before.bg
      case None =>
        after == before
  {
    if af.WellFormed() && Place(af, area).Contains(px, py) {
      CellAtWellFormed(af, area, px, py);
    }
  }

  /* Raster to frame */

  /**
   * The converted frame of a covered raster, cell by cell: cell y * w + x
   * holds the three bytes at y * stride + 3 * x and the glyph for them.
   */
  lemma FrameCellBytes(rs: Raster, y: nat, x: nat)
    requires rs.Covered() && y < rs.height && x < rs.width
    ensures var off := y * rs.stride + 3 * x;
      off + 3 <= |rs.data| && RowMajor(rs.width, y, x) < |FrameCells(rs)| &&
      var c := FrameCells(rs)[RowMajor(rs.width, y, x)];
      c == Cell(AsciiFor(rs.data[off], rs.data[off + 1], rs.data[off + 2]), rs.data[off], rs.data[off + 1], rs.data[off + 2])
  {
    RowInside(rs, y);
    FlattenIndex(Rows(rs), rs.width, y, x);
  }

  /** A covered raster converts to height * width cells. */
  lemma FrameLength(rs: Raster)
    requires rs.Covered()
    ensures |FrameCells(rs)| == rs.height * rs.width
  {
    FlattenLength(Rows(rs), rs.width);
  }
}
