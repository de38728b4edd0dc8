/** Exact-arithmetic counterparts of the Math functions both halves of the program use. */
module Numbers {

  function Min(a: real, b: real): real { if a <= b then a else b }

  function Max(a: real, b: real): real { if a >= b then a else b }

  function Abs(a: real): real { if a < 0.0 then -a else a }

  /** Math.floor, as an integer. */
  function Floor(v: real): int { v.Floor }

  /** Math.ceil, as an integer. */
  function Ceil(v: real): int { -((-v).Floor) }

  /** Math.round: halves go up, towards positive infinity. */
  function Round(v: real): int { (v + 0.5).Floor }

  /** Truncation towards zero. */
  function Trunc(v: real): int { if v < 0.0 then -((-v).Floor) else v.Floor }

  lemma FloorMonotone(v: real, w: real)
    requires v <= w
    ensures Floor(v) <= Floor(w)
  {
  }

  lemma CeilBounds(v: real)
    ensures v <= Ceil(v) as real < v + 1.0
  {
  }

  /** An integer below v is below its floor; an integer above v is above its ceiling. */
  lemma FloorIsGreatest(n: int, v: real)
    ensures n as real <= v <==> n <= Floor(v)
    ensures n as real >= v <==> n >= Ceil(v)
  {
  }

  /** Multiplying both sides of an inequality by a non-negative factor. */
  lemma MulLe(a: real, b: real, c: real)
    requires a <= b && c >= 0.0
    ensures a * c <= b * c && c * a <= c * b
  {
  }

  lemma MulNonNeg(a: real, b: real)
    requires a >= 0.0 && b >= 0.0
    ensures a * b >= 0.0
  {
  }

  lemma MulPos(a: real, b: real)
    requires a > 0.0 && b > 0.0
    ensures a * b > 0.0
  {
  }

  lemma ShrinkPos(v: real, k: real)
    requires v >= 0.0 && 0.0 <= k <= 1.0
    ensures 0.0 <= v * k <= v
  {
    assert v * (1.0 - k) >= 0.0;
  }

  /** A factor in [0, 1] moves a value towards zero. */
  lemma Shrink(v: real, k: real)
    requires 0.0 <= k <= 1.0
    ensures v >= 0.0 ==> 0.0 <= v * k <= v
    ensures v <= 0.0 ==> v <= v * k <= 0.0
  {
    if v >= 0.0 {
      ShrinkPos(v, k);
    } else {
      ShrinkPos(-v, k);
      assert (-v) * k == -(v * k);
    }
  }

  lemma SquareLe(a: real, b: real)
    requires 0.0 <= a <= b
    ensures a * a <= b * b
  {
    MulLe(a, b, a);
    MulLe(a, b, b);
  }

  lemma SquareStrict(a: real, b: real)
    requires 0.0 <= a < b
    ensures a * a < b * b
  {
    var d, e := b - a, b + a;
    MulPos(d, e);
    assert d * e == b * b - a * a;
  }

  /** The pre-image of a floored quotient: floor(n / d) for a positive divisor. */
  lemma FloorDiv(n: int, d: int)
    requires d > 0
    ensures Floor(n as real / d as real) == n / d
  {
    var q := n / d;
    assert n == q * d + n % d;
    assert q as real * d as real <= n as real;
    assert n as real < (q as real + 1.0) * d as real;
    var x := n as real / d as real;
    assert x * d as real == n as real;
    if x < q as real {
      MulLt(x, q as real, d as real);
    }
    if x >= q as real + 1.0 {
      MulLe(q as real + 1.0, x, d as real);
    }
  }

  lemma MulLt(a: real, b: real, c: real)
    requires a < b && c > 0.0
    ensures a * c < b * c
  {
  }

  lemma RealProduct(a: int, b: int)
    ensures (a * b) as real == a as real * b as real
  {
  }

  lemma MulBounds(a: real, b: real, x: real, y: real)
    requires 0.0 <= a <= x && 0.0 <= b <= y
    ensures 0.0 <= a * b <= x * y
  {
    MulLe(a, x, b);
    MulLe(b, y, x);
    MulNonNeg(a, b);
  }
}
