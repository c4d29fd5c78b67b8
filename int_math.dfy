/** Integer helpers shared by the line rasteriser and the pixel buffer. */
module IntMath {

  function Abs(a: int): (r: nat)
  {
    if a < 0 then -a else a
  }

  function Max(a: int, b: int): (r: int)
  {
    if a < b then b else a
  }

  function Min(a: int, b: int): (r: int)
  {
    if a < b then a else b
  }

  /** a * (b + 1) unfolds to a * b + a. */
  lemma MulSucc(a: int, b: int)
    ensures a * (b + 1) == a * b + a
  {
  }

  /** Multiplying by a positive factor keeps the order of its other operand. */
  lemma MulMonotone(b: int, u: int, v: int)
    requires 0 < b && u <= v
    ensures b * u <= b * v
  {
    assert b * v - b * u == b * (v - u);
  }

  /** A product of non-negative factors is non-negative. */
  lemma MulNonNegative(a: int, b: int)
    requires 0 <= a && 0 <= b
    ensures 0 <= a * b
  {
    if 0 < a {
      MulMonotone(a, 0, b);
    }
  }

  /** A positive factor can be cancelled from a strict sandwich. */
  lemma MulCancelBounds(b: int, lo: int, d: int, hi: int)
    requires 0 < b
    requires b * lo < b * d < b * hi
    ensures lo < d < hi
  {
    if d <= lo {
      MulMonotone(b, d, lo);
    }
    if hi <= d {
      MulMonotone(b, hi, d);
    }
  }

  /** The ceiling of a / b for a non-negative numerator: the least q with b * q >= a. */
  function CeilDiv(a: int, b: int): (q: int)
    requires 0 <= a && 0 < b
    ensures a <= b * q < a + b
  {
    (a + b - 1) / b
  }

  /** The bounds of CeilDiv's contract determine its result. */
  lemma CeilDivUnique(a: int, b: int, q: int)
    requires 0 <= a && 0 < b
    requires a <= b * q < a + b
    ensures CeilDiv(a, b) == q
  {
    var r := CeilDiv(a, b);
    assert b * (q - r) == b * q - b * r;
    MulCancelBounds(b, -1, q - r, 1);
  }

  /** One more step of k moves the ceiling of n * k / m by at most one when n <= m. */
  lemma CeilDivStep(n: int, m: int, k: int)
    requires 0 <= n <= m && 0 < m && 0 <= k
    ensures 0 <= CeilDiv(n * (k + 1), m) - CeilDiv(n * k, m) <= 1
  {
    var q0, q1 := CeilDiv(n * k, m), CeilDiv(n * (k + 1), m);
    assert n * (k + 1) == n * k + n;
    assert m * (q1 - q0) == m * q1 - m * q0;
    MulCancelBounds(m, -1, q1 - q0, 2);
  }

  /** For 0 <= k <= m the ceiling of n * k / m lies between 0 and n. */
  lemma CeilDivRange(n: int, m: int, k: int)
    requires 0 <= n && 0 < m && 0 <= k <= m
    ensures 0 <= CeilDiv(n * k, m) <= n
  {
    var q := CeilDiv(n * k, m);
    MulMonotone(n + 1, k, m);
    assert n * k <= n * m by {
      if n > 0 {
        MulMonotone(n, k, m);
      }
    }
    assert m * q < m * (n + 1);
    MulCancelBounds(m, -1, q, n + 1);
  }
}
