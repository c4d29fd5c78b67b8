/**
 * The positions Renderer::DrawLine visits, as a closed-form reference definition.
 *
 * DrawLine walks from the endpoint with the smaller x (p1 on a tie), steps a driving
 * axis by one each iteration and corrects the other axis with an integer error
 * accumulator. Its k-th position is k steps along the driving axis and
 * ceil(minor * k / major) steps along the corrected axis, where major and minor are
 * the larger and the smaller of |dx| and |dy|. The loop itself is Rendering.Renderer.DrawLine.
 */
module Lines {
  import opened IntMath

  /** An integer screen position (glm::ivec2). */
  datatype Point = Point(x: int, y: int)

  /** The four slope regimes DrawLine distinguishes, named after m = dy / dx with dx >= 0. */
  datatype Regime =
    | SteepUp      // m > 1: y is driven upwards, x corrected rightwards
    | SteepDown    // m < -1: y is driven downwards, x corrected rightwards
    | ShallowDown  // -1 <= m <= 0: x is driven rightwards, y corrected downwards
    | ShallowUp    // 0 < m <= 1: x is driven rightwards, y corrected upwards

  /** The endpoint DrawLine walks from: the one with the smaller x, p1 on a tie. */
  function WalkStart(p1: Point, p2: Point): (s: Point)
  {
    if p1.x > p2.x then p2 else p1
  }

  /** The endpoint DrawLine walks towards: the other one. */
  function WalkEnd(p1: Point, p2: Point): (t: Point)
  {
    if p1.x > p2.x then p1 else p2
  }

  /**
   * DrawLine's slope classification with the double m = dy / dx replaced by exact
   * integer tests. For dx == 0 the source's m is +inf or -inf (a steep regime), and for
   * dx == dy == 0 it is NaN: every comparison fails and the ShallowUp set-up runs.
   */
  function Classify(dx: int, dy: int): (regime: Regime)
    requires 0 <= dx
    ensures regime == SteepUp || regime == SteepDown <==> Abs(dy) > dx
    ensures regime == SteepDown ==> dy < 0
    ensures regime == ShallowDown <==> 0 < dx && -dx <= dy <= 0
    ensures regime == SteepUp || regime == ShallowUp ==> 0 <= dy
  {
    if dy > dx then SteepUp
    else if dy < -dx then SteepDown
    else if 0 < dx && dy <= 0 then ShallowDown
    else ShallowUp
  }

  /** Whether the regime drives y (|dy| > |dx|) rather than x. */
  predicate IsSteep(regime: Regime)
  {
    regime == SteepUp || regime == SteepDown
  }

  /**
   * The position k steps along the driving axis and c steps along the corrected axis
   * from s: x is always stepped rightwards, y upwards unless the regime points down.
   */
  function PlaceAt(s: Point, regime: Regime, k: int, c: int): (p: Point)
  {
    if IsSteep(regime) then Point(s.x + c, s.y + (if regime == SteepDown then -k else k))
    else Point(s.x + k, s.y + (if regime == ShallowDown then -c else c))
  }

  /** The positions DrawLine(p1, p2) hands to PutPixel, in order, before clipping. */
  function LinePixels(p1: Point, p2: Point): (r: seq<Point>)
    ensures |r| == Max(Abs(p2.x - p1.x), Abs(p2.y - p1.y))
  {
    var s, t := WalkStart(p1, p2), WalkEnd(p1, p2);
    var dx, dy := t.x - s.x, t.y - s.y;
    var major, minor := Max(dx, Abs(dy)), Min(dx, Abs(dy));
    Walk(s, Classify(dx, dy), minor, major, major)
  }

  /** The corrected-axis offset of the k-th position: ceil(minor * k / major). */
  function Offset(minor: nat, major: int, k: nat): (c: int)
    requires 0 < major
  {
    MulNonNegative(minor, k);
    CeilDiv(minor * k, major)
  }

  /** The first n positions of the walk from s. */
  function Walk(s: Point, regime: Regime, minor: nat, major: int, n: nat): (r: seq<Point>)
    requires n <= major
    ensures |r| == n
  {
    if n == 0 then []
    else Walk(s, regime, minor, major, n - 1) + [PlaceAt(s, regime, n - 1, Offset(minor, major, n - 1))]
  }

  /** Position k of the walk is k steps along the driving axis and ceil(minor * k / major) along the other. */
  lemma {:induction false} WalkAt(s: Point, regime: Regime, minor: nat, major: int, n: nat, k: int)
    requires n <= major && 0 <= k < n
    ensures Walk(s, regime, minor, major, n)[k] == PlaceAt(s, regime, k, Offset(minor, major, k))
  {
    if k < n - 1 {
      WalkAt(s, regime, minor, major, n - 1, k);
    }
  }

  /** The k-th position of the walk, by its offsets along the two axes from the start s. */
  lemma LinePixelAt(p1: Point, p2: Point, s: Point, t: Point, k: int)
    requires s == WalkStart(p1, p2) && t == WalkEnd(p1, p2)
    requires 0 <= k < Max(t.x - s.x, Abs(t.y - s.y))
    ensures var dx, dy := t.x - s.x, t.y - s.y;
      LinePixels(p1, p2)[k] == PlaceAt(s, Classify(dx, dy), k, Offset(Min(dx, Abs(dy)), Max(dx, Abs(dy)), k))
  {
    var dx, dy := t.x - s.x, t.y - s.y;
    WalkAt(s, Classify(dx, dy), Min(dx, Abs(dy)), Max(dx, Abs(dy)), Max(dx, Abs(dy)), k);
  }

  /** |(r - a) x (b - a)|: the distance of r from the line through a and b, scaled by |b - a|. */
  function Cross(a: Point, b: Point, r: Point): (d: int)
  {
    (r.x - a.x) * (b.y - a.y) - (r.y - a.y) * (b.x - a.x)
  }

  /** Exchanging the two reference points only flips the sign of the cross product. */
  lemma CrossSwap(a: Point, b: Point, r: Point)
    ensures Cross(b, a, r) == -Cross(a, b, r)
  {
    var ux, uy, dx, dy := r.x - a.x, r.y - a.y, b.x - a.x, b.y - a.y;
    assert (ux - dx) * (-dy) == -(ux * dy) + dx * dy;
    assert (uy - dy) * (-dx) == -(uy * dx) + dy * dx;
  }

  /**
   * The start and the length of the walk: nothing is drawn for p1 == p2; otherwise the
   * first position is the endpoint with the smaller x (p1 on a tie) and the other
   * endpoint is never visited.
   */
  lemma {:induction false} LineEnds(p1: Point, p2: Point)
    ensures LinePixels(p1, p2) == [] <==> p1 == p2
    ensures LinePixels(p1, p2) != [] ==> LinePixels(p1, p2)[0] == WalkStart(p1, p2)
    ensures WalkEnd(p1, p2) !in LinePixels(p1, p2)
  {
    var r := LinePixels(p1, p2);
    var s, t := WalkStart(p1, p2), WalkEnd(p1, p2);
    var dx, dy := t.x - s.x, t.y - s.y;
    var major, minor := Max(dx, Abs(dy)), Min(dx, Abs(dy));
    if r != [] {
      CeilDivUnique(0, major, 0);
      LinePixelAt(p1, p2, s, t, 0);
    }
    forall k | 0 <= k < |r|
      ensures r[k] != t
    {
      LinePixelAt(p1, p2, s, t, k);
    }
  }

  /** One step of the walk: one unit along the driving axis, at most one along the other. */
  lemma StepIsAdjacent(s: Point, regime: Regime, k: int, c0: int, c1: int)
    requires 0 <= c1 - c0 <= 1
    ensures var a, b := PlaceAt(s, regime, k, c0), PlaceAt(s, regime, k + 1, c1);
      && Abs(b.x - a.x) <= 1 && Abs(b.y - a.y) <= 1
      && (if IsSteep(regime) then Abs(b.y - a.y) == 1 else b.x - a.x == 1)
  {
  }

  /**
   * DrawLine's walk is an 8-connected run: each step moves exactly one unit along the
   * driving axis (y when |dy| > |dx|, otherwise x, always rightwards) and at most one
   * unit along the other axis.
   */
  lemma {:induction false} LineIsConnected(p1: Point, p2: Point)
    ensures var r := LinePixels(p1, p2);
      forall k :: 0 <= k < |r| - 1 ==>
        && Abs(r[k + 1].x - r[k].x) <= 1
        && Abs(r[k + 1].y - r[k].y) <= 1
        && (if Abs(p2.y - p1.y) > Abs(p2.x - p1.x) then Abs(r[k + 1].y - r[k].y) == 1
            else r[k + 1].x - r[k].x == 1)
  {
    var r := LinePixels(p1, p2);
    forall k | 0 <= k < |r| - 1
      ensures Abs(r[k + 1].x - r[k].x) <= 1 && Abs(r[k + 1].y - r[k].y) <= 1
      ensures if Abs(p2.y - p1.y) > Abs(p2.x - p1.x) then Abs(r[k + 1].y - r[k].y) == 1
              else r[k + 1].x - r[k].x == 1
    {
      LineStepAt(p1, p2, k);
    }
  }

  /** Step k of the walk, from position k to position k + 1. */
  lemma LineStepAt(p1: Point, p2: Point, k: int)
    requires 0 <= k < |LinePixels(p1, p2)| - 1
    ensures var r := LinePixels(p1, p2);
      && Abs(r[k + 1].x - r[k].x) <= 1
      && Abs(r[k + 1].y - r[k].y) <= 1
      && (if Abs(p2.y - p1.y) > Abs(p2.x - p1.x) then Abs(r[k + 1].y - r[k].y) == 1
          else r[k + 1].x - r[k].x == 1)
  {
    var s, t := WalkStart(p1, p2), WalkEnd(p1, p2);
    var dx, dy := t.x - s.x, t.y - s.y;
    var major, minor := Max(dx, Abs(dy)), Min(dx, Abs(dy));
    assert Abs(dy) == Abs(p2.y - p1.y) && dx == Abs(p2.x - p1.x);
    LinePixelAt(p1, p2, s, t, k);
    LinePixelAt(p1, p2, s, t, k + 1);
    CeilDivStep(minor, major, k);
    StepIsAdjacent(s, Classify(dx, dy), k, Offset(minor, major, k), Offset(minor, major, k + 1));
  }

  /** Every visited position lies in the bounding box of the two endpoints. */
  lemma {:induction false} LineStaysBetween(p1: Point, p2: Point)
    ensures var r := LinePixels(p1, p2);
      forall k :: 0 <= k < |r| ==>
        && Min(p1.x, p2.x) <= r[k].x <= Max(p1.x, p2.x)
        && Min(p1.y, p2.y) <= r[k].y <= Max(p1.y, p2.y)
  {
    var r := LinePixels(p1, p2);
    var s, t := WalkStart(p1, p2), WalkEnd(p1, p2);
    var dx, dy := t.x - s.x, t.y - s.y;
    var major, minor := Max(dx, Abs(dy)), Min(dx, Abs(dy));
    forall k | 0 <= k < |r|
      ensures Min(p1.x, p2.x) <= r[k].x <= Max(p1.x, p2.x)
      ensures Min(p1.y, p2.y) <= r[k].y <= Max(p1.y, p2.y)
    {
      CeilDivRange(minor, major, k);
      LinePixelAt(p1, p2, s, t, k);
    }
  }

  /**
   * The cross product of a position placed k steps along and c across: major * c - minor * k,
   * with the sign of the regime's orientation.
   */
  lemma CrossOfPlace(s: Point, t: Point, k: int, c: int)
    requires s.x <= t.x
    ensures var dx, dy := t.x - s.x, t.y - s.y;
      var regime := Classify(dx, dy);
      var d := Max(dx, Abs(dy)) * c - Min(dx, Abs(dy)) * k;
      Cross(s, t, PlaceAt(s, regime, k, c)) == if regime == SteepUp || regime == ShallowDown then d else -d
  {
    match Classify(t.x - s.x, t.y - s.y)
    case SteepUp => CrossSteepUp(s, t, k, c);
    case SteepDown => CrossSteepDown(s, t, k, c);
    case ShallowDown => CrossShallowDown(s, t, k, c);
    case ShallowUp => CrossShallowUp(s, t, k, c);
  }

  lemma CrossSteepUp(s: Point, t: Point, k: int, c: int)
    requires s.x <= t.x && Classify(t.x - s.x, t.y - s.y) == SteepUp
    ensures var dx, dy := t.x - s.x, t.y - s.y;
      var major, minor := Max(dx, Abs(dy)), Min(dx, Abs(dy));
      Cross(s, t, PlaceAt(s, SteepUp, k, c)) == major * c - minor * k
  {
  }

  lemma CrossSteepDown(s: Point, t: Point, k: int, c: int)
    requires s.x <= t.x && Classify(t.x - s.x, t.y - s.y) == SteepDown
    ensures var dx, dy := t.x - s.x, t.y - s.y;
      var major, minor := Max(dx, Abs(dy)), Min(dx, Abs(dy));
      Cross(s, t, PlaceAt(s, SteepDown, k, c)) == minor * k - major * c
  {
  }

  lemma CrossShallowDown(s: Point, t: Point, k: int, c: int)
    requires s.x <= t.x && Classify(t.x - s.x, t.y - s.y) == ShallowDown
    ensures var dx, dy := t.x - s.x, t.y - s.y;
      var major, minor := Max(dx, Abs(dy)), Min(dx, Abs(dy));
      Cross(s, t, PlaceAt(s, ShallowDown, k, c)) == major * c - minor * k
  {
  }

  lemma CrossShallowUp(s: Point, t: Point, k: int, c: int)
    requires s.x <= t.x && Classify(t.x - s.x, t.y - s.y) == ShallowUp
    ensures var dx, dy := t.x - s.x, t.y - s.y;
      var major, minor := Max(dx, Abs(dy)), Min(dx, Abs(dy));
      Cross(s, t, PlaceAt(s, ShallowUp, k, c)) == minor * k - major * c
  {
  }

  /** The cross product of one visited position, from the ceiling bounds on its offset c. */
  lemma CrossAt(s: Point, t: Point, k: int, c: int)
    requires s.x <= t.x
    requires var dx, dy := t.x - s.x, t.y - s.y;
      var major, minor := Max(dx, Abs(dy)), Min(dx, Abs(dy));
      minor * k <= major * c < minor * k + major
    ensures var dx, dy := t.x - s.x, t.y - s.y;
      var major := Max(dx, Abs(dy));
      -major < Cross(s, t, PlaceAt(s, Classify(dx, dy), k, c)) < major
  {
    CrossOfPlace(s, t, k, c);
  }

  /**
   * Every visited position is within one unit of the exact segment, measured along
   * the corrected axis: |(r - p1) x (p2 - p1)| < max(|dx|, |dy|).
   */
  lemma {:induction false} LineTracksSegment(p1: Point, p2: Point)
    ensures var r := LinePixels(p1, p2);
      forall k :: 0 <= k < |r| ==> Abs(Cross(p1, p2, r[k])) < |r|
  {
    var r := LinePixels(p1, p2);
    var s, t := WalkStart(p1, p2), WalkEnd(p1, p2);
    var dx, dy := t.x - s.x, t.y - s.y;
    var major, minor := Max(dx, Abs(dy)), Min(dx, Abs(dy));
    forall k | 0 <= k < |r|
      ensures Abs(Cross(p1, p2, r[k])) < |r|
    {
      var c := Offset(minor, major, k);
      LinePixelAt(p1, p2, s, t, k);
      CrossAt(s, t, k, c);
      if p1.x > p2.x {
        CrossSwap(p2, p1, r[k]);
      }
    }
  }

  /**
   * Exchanging the endpoints: when their x coordinates differ DrawLine orders them by x,
   * so both calls visit the same positions; on a vertical line nothing is exchanged, each
   * call starts at its own first argument and omits the other endpoint.
   */
  lemma {:induction false} LineSwap(p1: Point, p2: Point)
    ensures p1.x != p2.x ==> LinePixels(p1, p2) == LinePixels(p2, p1)
    ensures p1.x == p2.x && p1 != p2 ==>
      && LinePixels(p1, p2)[0] == p1 && p2 !in LinePixels(p1, p2)
      && LinePixels(p2, p1)[0] == p2 && p1 !in LinePixels(p2, p1)
  {
    LineEnds(p1, p2);
    LineEnds(p2, p1);
  }
}
