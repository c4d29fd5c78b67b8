/**
 * The CPU-side pixel buffer of Renderer: a flat float array of 3 * width * height entries,
 * pixel (x, y) channel c at index (x + y * width) * 3 + c (the INDEX macro of Renderer.cpp).
 * Plot and PaintLine give the buffer contents after one PutPixel and after a run of them.
 */
module ColorBuffers {
  import opened IntMath
  import opened Lines

  /** An RGB colour (glm::vec3 with components x, y, z); float rounding is not modelled. */
  datatype Color = Color(r: real, g: real, b: real)

  /** Component c of a colour: 0 is red (x), 1 green (y), 2 blue (z). */
  function Channel(col: Color, c: int): (r: real)
    requires 0 <= c < 3
  {
    if c == 0 then col.r else if c == 1 then col.g else col.b
  }

  /** The INDEX macro: where channel c of pixel (x, y) lives. */
  function Index(width: int, x: int, y: int, c: int): (r: int)
  {
    (x + y * width) * 3 + c
  }

  /** PutPixel's clipping test: the pixel lies in [0, width) x [0, height). */
  predicate InViewport(width: int, height: int, p: Point)
  {
    0 <= p.x < width && 0 <= p.y < height
  }

  /** The three channels of a pixel in the viewport sit inside the buffer, and nowhere else. */
  lemma PixelIndex(width: int, height: int, x: int, y: int, c: int)
    requires 0 <= x < width && 0 <= y < height && 0 <= c < 3
    ensures 0 <= Index(width, x, y, c) < 3 * width * height
    ensures Index(width, x, y, c) / 3 == x + y * width && Index(width, x, y, c) % 3 == c
  {
    MulMonotone(width, y, height - 1);
    assert (height - 1) * width == height * width - width;
    assert 0 <= y * width;
  }

  /** Pixel numbers x + y * width are distinct for distinct pixels of one row width. */
  lemma PixelUnique(width: int, x: int, y: int, x': int, y': int)
    requires 0 <= x < width && 0 <= x' < width
    ensures x + y * width == x' + y' * width <==> x == x' && y == y'
  {
    if x + y * width == x' + y' * width {
      assert width * (y - y') == x' - x;
      MulCancelBounds(width, -1, y - y', 1);
    }
  }

  /** Every buffer index is a channel of exactly one pixel in the viewport. */
  lemma PixelOfIndex(width: int, height: int, n: int)
    requires 0 < width && 0 <= height && 0 <= n < 3 * width * height
    ensures 0 <= (n / 3) % width < width && 0 <= (n / 3) / width < height
    ensures n == Index(width, (n / 3) % width, (n / 3) / width, n % 3)
  {
    var p := n / 3;
    var x, y := p % width, p / width;
    assert p == y * width + x;
    assert p < width * height;
    if y >= height {
      MulMonotone(width, height, y);
    }
  }

  /**
   * PutPixel on a buffer value: a pixel in the viewport gets its three channels from col,
   * one outside it changes nothing, and every other entry keeps its value.
   */
  ghost function Plot(buf: seq<real>, width: nat, height: nat, p: Point, col: Color): (r: seq<real>)
    requires |buf| == 3 * width * height
    ensures |r| == |buf|
  {
    if InViewport(width, height, p) then
      PixelIndex(width, height, p.x, p.y, 2);
      var i := Index(width, p.x, p.y, 0);
      buf[i := col.r][i + 1 := col.g][i + 2 := col.b]
    else
      buf
  }

  /** Entry by entry, Plot writes col's channels at the pixel when it is in the viewport and nothing else. */
  lemma PlotAt(buf: seq<real>, width: nat, height: nat, p: Point, col: Color, n: int)
    requires |buf| == 3 * width * height && 0 <= n < |buf|
    ensures Plot(buf, width, height, p, col)[n] ==
      if InViewport(width, height, p) && n / 3 == p.x + p.y * width then Channel(col, n % 3) else buf[n]
  {
    if InViewport(width, height, p) {
      PixelIndex(width, height, p.x, p.y, 2);
    }
  }

  /**
   * The pixels ClearColorBuffer has set to col after column i up to row j: every pixel of
   * the columns before i, and the rows before j of column i.
   */
  ghost predicate ClearedBefore(buf: seq<real>, width: int, height: int, i: int, j: int, col: Color)
  {
    forall x, y, c :: 0 <= x < width && 0 <= y < height && 0 <= c < 3 && (x < i || (x == i && y < j)) ==>
      0 <= Index(width, x, y, c) < |buf| && buf[Index(width, x, y, c)] == Channel(col, c)
  }

  /** Plotting pixel (i, j) extends the cleared region by that one pixel. */
  lemma ClearStep(buf: seq<real>, width: nat, height: nat, i: int, j: int, col: Color)
    requires |buf| == 3 * width * height && 0 <= i < width && 0 <= j < height
    requires ClearedBefore(buf, width, height, i, j, col)
    ensures ClearedBefore(Plot(buf, width, height, Point(i, j), col), width, height, i, j + 1, col)
  {
    var after := Plot(buf, width, height, Point(i, j), col);
    forall x, y, c | 0 <= x < width && 0 <= y < height && 0 <= c < 3 && (x < i || (x == i && y < j + 1))
      ensures 0 <= Index(width, x, y, c) < |after| && after[Index(width, x, y, c)] == Channel(col, c)
    {
      PixelIndex(width, height, x, y, c);
      PixelUnique(width, x, y, i, j);
      PlotAt(buf, width, height, Point(i, j), col, Index(width, x, y, c));
    }
  }

  /** A buffer cleared over every column holds col's channel c at every entry n with n % 3 == c. */
  lemma ClearedAll(buf: seq<real>, width: nat, height: nat, col: Color)
    requires |buf| == 3 * width * height
    requires ClearedBefore(buf, width, height, width, 0, col)
    ensures forall n :: 0 <= n < |buf| ==> buf[n] == Channel(col, n % 3)
  {
    forall n | 0 <= n < |buf|
      ensures buf[n] == Channel(col, n % 3)
    {
      PixelOfIndex(width, height, n);
    }
  }

  /** The buffer after PutPixel(q, col) for each q of pts, in order. */
  ghost function PaintLine(buf: seq<real>, width: nat, height: nat, pts: seq<Point>, col: Color): (r: seq<real>)
    requires |buf| == 3 * width * height
    ensures |r| == |buf|
    decreases |pts|
  {
    if pts == [] then buf
    else Plot(PaintLine(buf, width, height, pts[..|pts| - 1], col), width, height, pts[|pts| - 1], col)
  }

  /** Drawing one more point of pts is one more Plot on top of the prefix drawn so far. */
  lemma PaintLineStep(buf: seq<real>, width: nat, height: nat, pts: seq<Point>, k: int, col: Color)
    requires |buf| == 3 * width * height && 0 <= k < |pts|
    ensures PaintLine(buf, width, height, pts[..k + 1], col) ==
      Plot(PaintLine(buf, width, height, pts[..k], col), width, height, pts[k], col)
  {
    assert pts[..k + 1][..k] == pts[..k];
  }

  /** Entry n belongs to a pixel of pts that lies in the viewport. */
  ghost predicate Covered(width: int, height: int, pts: seq<Point>, n: int)
  {
    exists k :: 0 <= k < |pts| && InViewport(width, height, pts[k]) && n / 3 == pts[k].x + pts[k].y * width
  }

  /** Entry by entry: an entry takes col's channel exactly when a clipped-in pixel of pts covers it. */
  lemma {:induction false} PaintLineAt(buf: seq<real>, width: nat, height: nat, pts: seq<Point>, col: Color, n: int)
    requires |buf| == 3 * width * height && 0 <= n < |buf|
    ensures PaintLine(buf, width, height, pts, col)[n] ==
      if Covered(width, height, pts, n) then Channel(col, n % 3) else buf[n]
    decreases |pts|
  {
    if pts != [] {
      var init, last := pts[..|pts| - 1], pts[|pts| - 1];
      PaintLineAt(buf, width, height, init, col, n);
      PlotAt(PaintLine(buf, width, height, init, col), width, height, last, col, n);
      if Covered(width, height, init, n) {
        var k :| 0 <= k < |init| && InViewport(width, height, init[k]) && n / 3 == init[k].x + init[k].y * width;
        assert pts[k] == init[k];
      }
      if InViewport(width, height, last) && n / 3 == last.x + last.y * width {
        assert pts[|pts| - 1] == last;
      }
      if Covered(width, height, pts, n) {
        var k :| 0 <= k < |pts| && InViewport(width, height, pts[k]) && n / 3 == pts[k].x + pts[k].y * width;
        if k < |pts| - 1 {
          assert init[k] == pts[k];
        }
      }
    }
  }

  /**
   * Pixel by pixel: after drawing pts, channel c of a viewport pixel (x, y) holds col's
   * channel if (x, y) is one of pts and its old value otherwise.
   */
  lemma PaintLineAtPixel(buf: seq<real>, width: nat, height: nat, pts: seq<Point>, col: Color, x: int, y: int, c: int)
    requires |buf| == 3 * width * height
    requires 0 <= x < width && 0 <= y < height && 0 <= c < 3
    ensures 0 <= Index(width, x, y, c) < |buf|
    ensures PaintLine(buf, width, height, pts, col)[Index(width, x, y, c)] ==
      if Point(x, y) in pts then Channel(col, c) else buf[Index(width, x, y, c)]
  {
    var n := Index(width, x, y, c);
    PixelIndex(width, height, x, y, c);
    PaintLineAt(buf, width, height, pts, col, n);
    if Covered(width, height, pts, n) {
      var k :| 0 <= k < |pts| && InViewport(width, height, pts[k]) && n / 3 == pts[k].x + pts[k].y * width;
      PixelUnique(width, x, y, pts[k].x, pts[k].y);
    }
    if Point(x, y) in pts {
      var k :| 0 <= k < |pts| && pts[k] == Point(x, y);
      assert InViewport(width, height, pts[k]);
    }
  }

  /** Pixels outside the viewport are never written: a run with no pixel inside leaves the buffer as it was. */
  lemma PaintLineClips(buf: seq<real>, width: nat, height: nat, pts: seq<Point>, col: Color)
    requires |buf| == 3 * width * height
    requires forall k :: 0 <= k < |pts| ==> !InViewport(width, height, pts[k])
    ensures PaintLine(buf, width, height, pts, col) == buf
  {
    var r := PaintLine(buf, width, height, pts, col);
    forall n | 0 <= n < |buf|
      ensures r[n] == buf[n]
    {
      PaintLineAt(buf, width, height, pts, col, n);
    }
  }
}
