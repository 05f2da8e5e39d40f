/** Shared vocabulary for the DSP core: an optional value, the f32 helpers the
    Rust code calls (`max`, `clamp`, `%`), modelled over `real`, and a few facts
    about real division and multiplication that the proofs reuse. */
module Numeric {

  /** Rust's `Option<T>`. */
  datatype Option<T> = None | Some(value: T)

  /** `f32::max`: the larger of the two arguments (NaN is not modelled). */
  function Max(x: real, y: real): (r: real)
    ensures r >= x && r >= y
    ensures r == x || r == y
  {
    if x >= y then x else y
  }

  /** `f32::clamp(lo, hi)`: `lo` below the range, `hi` above it, `x` inside it.
      Rust panics when `lo > hi`; that is this function's precondition. */
  function Clamp(x: real, lo: real, hi: real): (r: real)
    requires lo <= hi
    ensures lo <= r <= hi
    ensures lo <= x <= hi ==> r == x
    ensures x < lo ==> r == lo
    ensures x > hi ==> r == hi
  {
    if x < lo then lo else if x > hi then hi else x
  }

  /** `f32::trunc`: rounds toward zero. */
  function Trunc(x: real): (n: int)
    ensures x >= 0.0 ==> 0.0 <= n as real <= x < n as real + 1.0
    ensures x < 0.0 ==> n as real - 1.0 < x <= n as real <= 0.0
  {
    if x >= 0.0 then x.Floor else -((-x).Floor)
  }

  /** The `%` operator on f32: the truncated remainder, which takes the sign
      of the dividend (unlike Dafny's Euclidean `%` on integers). */
  function FloatRem(x: real, y: real): (r: real)
    requires y != 0.0
    ensures y == 1.0 && x >= 0.0 ==> 0.0 <= r < 1.0 && r == x - x.Floor as real
  {
    assert y == 1.0 ==> x / y == x;
    x - Trunc(x / y) as real * y
  }

  /** `x - floor(x)`: the fractional part, always in [0, 1). */
  function Frac(x: real): (r: real)
    ensures 0.0 <= r < 1.0
    ensures (x - r).Floor as real == x - r
  {
    x - x.Floor as real
  }

  lemma FracOfUnit(x: real)
    requires 0.0 <= x < 1.0
    ensures Frac(x) == x
  {
  }

  /** Shifting by a whole number does not change the fractional part. */
  lemma FracShift(x: real, k: int)
    ensures Frac(x + k as real) == Frac(x)
  {
    var m := x.Floor;
    assert m as real + k as real <= x + k as real < m as real + k as real + 1.0;
    assert (x + k as real).Floor == m + k;
  }

  lemma DivNonNegative(a: real, d: real)
    requires a >= 0.0 && d > 0.0
    ensures a / d >= 0.0
  {
  }

  lemma DivBelowOne(a: real, d: real)
    requires 0.0 <= a < d
    ensures 0.0 <= a / d < 1.0
  {
  }

  lemma DivMonotone(a: real, b: real, d: real)
    requires a <= b && d > 0.0
    ensures a / d <= b / d
  {
    assert b / d - a / d == (b - a) / d;
  }

  lemma MulUnitInterval(a: real, b: real)
    requires 0.0 <= a <= 1.0 && 0.0 <= b <= 1.0
    ensures 0.0 <= a * b <= 1.0
    ensures a * b <= a
  {
  }

  lemma DivStrictMonotone(a: real, b: real, d: real)
    requires a < b && d > 0.0
    ensures a / d < b / d
  {
    assert b / d - a / d == (b - a) / d;
  }

  lemma MulMonotone(k: real, x: real, y: real)
    requires k >= 0.0 && x <= y
    ensures k * x <= k * y
  {
    assert k * y - k * x == k * (y - x);
  }

  /** A product as a function: a fact about `Mul(e, e)` carries over to the
      square of a compound expression `e` without the solver having to
      expand it. */
  function Mul(a: real, b: real): real
  {
    a * b
  }

  /** A factor in [0, 1] scales a non-negative `k` into [0, k]. */
  lemma MulBetween(k: real, x: real)
    requires k >= 0.0 && 0.0 <= x <= 1.0
    ensures 0.0 <= Mul(k, x) <= k
  {
    MulMonotone(k, 0.0, x);
    MulMonotone(k, x, 1.0);
  }

  /** Multiplying by a non-negative `k` keeps the order, stated on `Mul`. */
  lemma MulOrdered(k: real, x: real, y: real)
    requires k >= 0.0 && x <= y
    ensures Mul(k, x) <= Mul(k, y)
  {
    MulMonotone(k, x, y);
  }

  lemma MulPositive(a: real, b: real)
    requires a > 0.0 && b > 0.0
    ensures Mul(a, b) > 0.0
  {
  }

  lemma MulPositiveIff(a: real, b: real)
    requires a >= 0.0 && b > 0.0
    ensures a * b > 0.0 <==> a > 0.0
  {
    if a == 0.0 {
      assert a * b == 0.0;
    }
  }

  lemma MulPositiveBoth(a: real, b: real)
    requires a >= 0.0 && b >= 0.0
    ensures a * b > 0.0 <==> a > 0.0 && b > 0.0
  {
    if a > 0.0 && b > 0.0 {
      MulPositive(a, b);
    } else if a == 0.0 {
      assert a * b == 0.0;
    } else {
      assert b == 0.0 && a * b == 0.0;
    }
  }

  lemma DistributeSucc(m: real, d: real)
    ensures (m + 1.0) * d == m * d + d
  {
  }
}
