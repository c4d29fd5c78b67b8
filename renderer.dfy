/**
 * The software rasteriser of Renderer.cpp: the colour buffer it owns, PutPixel's clipped
 * write, the error-accumulator DrawLine loop, the full clear and the buffer allocation.
 */
module Rendering {
  import opened IntMath
  import opened Lines
  import opened ColorBuffers

  class Renderer {
    var viewportWidth: int
    var viewportHeight: int
    /** color_buffer: 3 floats per pixel, row-major by x + y * width. */
    var colorBuffer: array<real>

    /** The buffer holds exactly three channels for every pixel of the viewport. */
    ghost predicate Valid()
      reads this
    {
      0 <= viewportWidth && 0 <= viewportHeight && colorBuffer.Length == 3 * viewportWidth * viewportHeight
    }

    /** Records the viewport size and allocates a black buffer for it (the OpenGL set-up is not modelled). */
    constructor (viewportWidth: int, viewportHeight: int)
      requires 0 <= viewportWidth && 0 <= viewportHeight
      ensures Valid() && fresh(colorBuffer)
      ensures this.viewportWidth == viewportWidth && this.viewportHeight == viewportHeight
      ensures forall n :: 0 <= n < colorBuffer.Length ==> colorBuffer[n] == 0.0
    {
      this.viewportWidth := viewportWidth;
      this.viewportHeight := viewportHeight;
      colorBuffer := new real[0];
      new;
      CreateBuffers(viewportWidth, viewportHeight);
    }

    /**
     * Allocates 3 * w * h entries and clears them to black. The source sizes the buffer
     * from w and h but clears it over the viewport fields, so the two must agree.
     */
    method CreateBuffers(w: int, h: int)
      requires 0 <= w && 0 <= h
      requires w == viewportWidth && h == viewportHeight
      modifies this
      ensures Valid() && fresh(colorBuffer)
      ensures viewportWidth == old(viewportWidth) && viewportHeight == old(viewportHeight)
      ensures forall n :: 0 <= n < colorBuffer.Length ==> colorBuffer[n] == 0.0
    {
      assert 0 <= w * h;
      colorBuffer := new real[3 * w * h];
      ClearColorBuffer(Color(0.0, 0.0, 0.0));
    }

    /** Writes the three channels of pixel (i, j), or nothing when it lies outside the viewport. */
    method PutPixel(i: int, j: int, color: Color)
      requires Valid()
      modifies colorBuffer
      ensures colorBuffer[..] == Plot(old(colorBuffer[..]), viewportWidth, viewportHeight, Point(i, j), color)
    {
      if i < 0 { return; }
      if i >= viewportWidth { return; }
      if j < 0 { return; }
      if j >= viewportHeight { return; }

      PixelIndex(viewportWidth, viewportHeight, i, j, 2);
      ghost var before := colorBuffer[..];
      colorBuffer[Index(viewportWidth, i, j, 0)] := color.r;
      colorBuffer[Index(viewportWidth, i, j, 1)] := color.g;
      colorBuffer[Index(viewportWidth, i, j, 2)] := color.b;
      ghost var at := Index(viewportWidth, i, j, 0);
      assert colorBuffer[..] == before[at := color.r][at + 1 := color.g][at + 2 := color.b];
    }

    /** Sets every pixel to color, column by column as the source's nested loops do. */
    method ClearColorBuffer(color: Color)
      requires Valid()
      modifies colorBuffer
      ensures forall n :: 0 <= n < colorBuffer.Length ==> colorBuffer[n] == Channel(color, n % 3)
    {
      for i := 0 to viewportWidth
        invariant ClearedBefore(colorBuffer[..], viewportWidth, viewportHeight, i, 0, color)
      {
        for j := 0 to viewportHeight
          invariant ClearedBefore(colorBuffer[..], viewportWidth, viewportHeight, i, j, color)
        {
          ghost var before := colorBuffer[..];
          PutPixel(i, j, color);
          ClearStep(before, viewportWidth, viewportHeight, i, j, color);
        }
      }
      ClearedAll(colorBuffer[..], viewportWidth, viewportHeight, color);
    }

    /**
     * The integer line algorithm: the buffer afterwards is the old one with PutPixel applied
     * to each position of LinePixels(p1, p2) in order. The set-up before the loop is
     * LineSetup; the pointers the source steps through become Nudge on the coordinate
     * that steep selects.
     */
    method DrawLine(p1: Point, p2: Point, color: Color)
      requires Valid()
      modifies colorBuffer
      ensures colorBuffer[..] == PaintLine(old(colorBuffer[..]), viewportWidth, viewportHeight, LinePixels(p1, p2), color)
    {
      var start, end, steep, theEnd, transform1, transform2, firstDelta, secondDelta, firstDeltaChange, secondDeltaChange := LineSetup(p1, p2);
      var e := 0;
      ghost var origin := start;
      ghost var dx, dy := end.x - start.x, end.y - start.y;
      ghost var regime := Classify(dx, dy);
      ghost var major, minor := Max(dx, Abs(dy)), Min(dx, Abs(dy));
      ghost var pixels := LinePixels(p1, p2);

      ghost var k, c := 0, 0;
      while (if steep then start.y else start.x) != theEnd
        invariant 0 <= k <= major
        invariant start == PlaceAt(origin, regime, k, c)
        invariant c == CorrectionsMade(minor, major, k) && e == ErrorBefore(minor, major, k)
        invariant colorBuffer[..] == PaintLine(old(colorBuffer[..]), viewportWidth, viewportHeight, pixels[..k], color)
        decreases major - k
      {
        PlaceReachesEnd(origin, end, k, c);
        AccumulatorStep(minor, major, k);
        PixelAtStep(p1, p2, origin, end, regime, minor, major, k);
        if e > 0 {
          NudgeCorrects(origin, regime, k, c);
          start := Nudge(start, steep, transform1);
          e := e - 2 * firstDelta * firstDeltaChange;
          c := c + 1;
        }
        PaintLineStep(old(colorBuffer[..]), viewportWidth, viewportHeight, pixels, k, color);
        PutPixel(start.x, start.y, color);
        NudgeDrives(origin, regime, k, c);
        start := Nudge(start, !steep, transform2);
        e := e + 2 * secondDelta * secondDeltaChange;
        k := k + 1;
      }
      PlaceReachesEnd(origin, end, k, c);
      assert pixels[..k] == pixels;
    }
  }

  /**
   * The set-up of DrawLine: the endpoints ordered by x, the slope tests, and the
   * choice of driving axis, step signs and error increments they lead to.
   */
  method LineSetup(p1: Point, p2: Point)
    returns (start: Point, end: Point, steep: bool, theEnd: int, transform1: int, transform2: int,
             firstDelta: int, secondDelta: int, firstDeltaChange: int, secondDeltaChange: int)
    ensures start == WalkStart(p1, p2) && end == WalkEnd(p1, p2)
    ensures var regime := Classify(end.x - start.x, end.y - start.y);
      && steep == IsSteep(regime)
      && transform1 == (if regime == ShallowDown then -1 else 1)
      && transform2 == (if regime == SteepDown then -1 else 1)
    ensures var dx, dy := end.x - start.x, end.y - start.y;
      && 2 * firstDelta * firstDeltaChange == 2 * Max(dx, Abs(dy))
      && 2 * secondDelta * secondDeltaChange == 2 * Min(dx, Abs(dy))
    ensures theEnd == if steep then end.y else end.x
  {
    start, end := p1, p2;
    if p1.x > p2.x {
      start, end := p2, p1;
    }
    transform1, transform2 := 1, 1;
    firstDelta := end.x - start.x;
    secondDelta := end.y - start.y;
    // The slope m = secondDelta / firstDelta, a double in the source, compared exactly.
    var slopeAboveOne := secondDelta > firstDelta;                               // m > 1
    var slopeBelowMinusOne := secondDelta < -firstDelta;                         // m < -1
    var slopeInMinusOneToZero := 0 < firstDelta && -firstDelta <= secondDelta <= 0;  // -1 <= m <= 0
    // coordinate1 (the corrected one) designates start.x when steep, start.y otherwise;
    // coordinate2 (the driven one, also theStart) the other coordinate.
    steep := slopeAboveOne || slopeBelowMinusOne;
    theEnd := end.x;
    firstDeltaChange, secondDeltaChange := 1, 1;

    if steep {
      theEnd := end.y;
      firstDelta, secondDelta := secondDelta, firstDelta;
      if slopeBelowMinusOne {
        transform2 := -1;
        firstDeltaChange := -1;
      }
    }
    if slopeInMinusOneToZero {
      transform1 := -1;
      secondDeltaChange := -1;
    }
  }

  /** *p += delta through a pointer to p.x (onX) or to p.y. */
  function Nudge(p: Point, onX: bool, delta: int): (q: Point)
  {
    if onX then Point(p.x + delta, p.y) else Point(p.x, p.y + delta)
  }

  /** DrawLine's correction step, *coordinate1 += transform1, moves the walk one unit along the corrected axis. */
  lemma NudgeCorrects(s: Point, regime: Regime, k: int, c: int)
    ensures Nudge(PlaceAt(s, regime, k, c), IsSteep(regime), if regime == ShallowDown then -1 else 1) == PlaceAt(s, regime, k, c + 1)
  {
  }

  /** DrawLine's driving step, *coordinate2 += transform2, moves the walk one unit along the driving axis. */
  lemma NudgeDrives(s: Point, regime: Regime, k: int, c: int)
    ensures Nudge(PlaceAt(s, regime, k, c), !IsSteep(regime), if regime == SteepDown then -1 else 1) == PlaceAt(s, regime, k + 1, c)
  {
  }

  /** The driven coordinate reaches the far endpoint's exactly after major steps. */
  lemma PlaceReachesEnd(s: Point, t: Point, k: int, c: int)
    requires s.x <= t.x
    ensures var regime := Classify(t.x - s.x, t.y - s.y);
      var p := PlaceAt(s, regime, k, c);
      (if IsSteep(regime) then p.y == t.y else p.x == t.x) <==> k == Max(t.x - s.x, Abs(t.y - s.y))
  {
  }

  /** The error e DrawLine holds before step k: 2 * major off when it was positive, then 2 * minor on. */
  function ErrorBefore(minor: int, major: int, k: nat): (e: int)
  {
    if k == 0 then 0
    else
      var e := ErrorBefore(minor, major, k - 1);
      (if e > 0 then e - 2 * major else e) + 2 * minor
  }

  /** The corrections DrawLine has made before step k: one for every step whose error was positive. */
  function CorrectionsMade(minor: int, major: int, k: nat): (c: int)
  {
    if k == 0 then 0
    else CorrectionsMade(minor, major, k - 1) + (if ErrorBefore(minor, major, k - 1) > 0 then 1 else 0)
  }

  /** One step of the accumulator: the error test decides both the next error and the next count. */
  lemma AccumulatorStep(minor: int, major: int, k: nat)
    ensures var e := ErrorBefore(minor, major, k);
      && ErrorBefore(minor, major, k + 1) == (if e > 0 then e - 2 * major else e) + 2 * minor
      && CorrectionsMade(minor, major, k + 1) == CorrectionsMade(minor, major, k) + (if e > 0 then 1 else 0)
  {
  }

  /**
   * The loop's accumulator in closed form: ceil(minor * (k - 1) / major) corrections
   * before step k, and the error e == 2 * minor * k - 2 * major * c for those c.
   */
  lemma {:induction false} AccumulatorClosedForm(minor: int, major: int, k: int)
    requires 0 <= minor <= major && 0 <= k <= major
    ensures CorrectionsMade(minor, major, k) == CorrectionsBefore(minor, major, k)
    ensures ErrorBefore(minor, major, k) == 2 * (minor * k) - 2 * (major * CorrectionsMade(minor, major, k))
  {
    if k > 0 {
      AccumulatorClosedForm(minor, major, k - 1);
      var c := CorrectionsMade(minor, major, k - 1);
      CorrectionStep(minor, major, k - 1, c);
      MulSucc(minor, k - 1);
      MulSucc(major, c);
    }
  }

  /**
   * DrawLine's error test makes the right correction: with the accumulator (c, e) it
   * holds before step k, the position it plots is the k-th of LinePixels, whose
   * corrected-axis offset is ceil(minor * k / major).
   */
  lemma PixelAtStep(p1: Point, p2: Point, s: Point, t: Point, regime: Regime, minor: int, major: int, k: int)
    requires s == WalkStart(p1, p2) && t == WalkEnd(p1, p2)
    requires regime == Classify(t.x - s.x, t.y - s.y)
    requires minor == Min(t.x - s.x, Abs(t.y - s.y)) && major == Max(t.x - s.x, Abs(t.y - s.y))
    requires 0 <= k < major
    ensures LinePixels(p1, p2)[k] ==
      PlaceAt(s, regime, k, CorrectionsMade(minor, major, k) + if ErrorBefore(minor, major, k) > 0 then 1 else 0)
  {
    AccumulatorClosedForm(minor, major, k);
    CorrectionStep(minor, major, k, CorrectionsMade(minor, major, k));
    LinePixelAt(p1, p2, s, t, k);
  }

  /** The corrections DrawLine has made before step k: none at the start, then ceil(minor * (k - 1) / major). */
  function CorrectionsBefore(minor: int, major: int, k: int): (c: int)
    requires 0 <= minor && 0 <= k <= major
  {
    if k == 0 then 0
    else
      Offset(minor, major, k - 1)
  }

  /**
   * The error test of DrawLine's loop: with c corrections made before step k and error
   * e = 2 * minor * k - 2 * major * c, one more correction is due exactly when e > 0,
   * after which c is ceil(minor * k / major).
   */
  lemma CorrectionStep(minor: int, major: int, k: int, c: int)
    requires 0 <= minor <= major && 0 <= k < major
    requires c == CorrectionsBefore(minor, major, k)
    ensures Offset(minor, major, k) == if 2 * (minor * k) - 2 * (major * c) > 0 then c + 1 else c
  {
    if k == 0 {
      CeilDivUnique(0, major, 0);
    } else {
      assert minor * k == minor * (k - 1) + minor;
      if 2 * (minor * k) - 2 * (major * c) > 0 {
        assert major * (c + 1) == major * c + major;
        CeilDivUnique(minor * k, major, c + 1);
      } else {
        CeilDivUnique(minor * k, major, c);
      }
    }
  }
}
