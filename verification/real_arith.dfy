/**
 * Facts about running minimum, maximum, sum and mean that both the ground station's
 * statistics and the dashboard's per-key statistics rest on. Python floats are
 * modelled as exact reals.
 */
module RealArith {
  /** Python's `abs` on a float. */
  function Abs(x: real): (r: real)
    ensures r >= 0.0 && (r == x || r == -x)
  {
    if x < 0.0 then -x else x
  }

  /** `a ≤ b` scales by a non-negative factor. */
  lemma ScaleLe(a: real, b: real, n: real)
    requires a <= b && n >= 0.0
    ensures a * n <= b * n
  {
  }

  /** `a ≤ b` divides by a positive factor. */
  lemma DivLe(a: real, b: real, n: real)
    requires a <= b && n > 0.0
    ensures a / n <= b / n
  {
  }

  /** When `n` readings sum to `total` and each lies in [lo, hi], their mean lies in [lo, hi]. */
  lemma MeanBetween(lo: real, hi: real, total: real, n: real)
    requires n > 0.0 && lo * n <= total <= hi * n
    ensures lo <= total / n <= hi
  {
    assert lo == (lo * n) / n;
    assert hi == (hi * n) / n;
    DivLe(lo * n, total, n);
    DivLe(total, hi * n, n);
  }

  /**
   * Folding one more reading `v` into a sum of `n` readings bracketed by [lo, hi], with a
   * new minimum no larger than both `lo` and `v` and a new maximum no smaller than both
   * `hi` and `v`, keeps the `n + 1` readings bracketed.
   */
  lemma IncludeKeepsBounds(lo: real, hi: real, total: real, n: real, v: real, lo': real, hi': real)
    requires n >= 0.0 && lo * n <= total <= hi * n
    requires lo' <= lo && lo' <= v && hi <= hi' && v <= hi'
    ensures lo' * (n + 1.0) <= total + v <= hi' * (n + 1.0)
  {
    ScaleLe(lo', lo, n);
    ScaleLe(hi, hi', n);
    assert lo' * (n + 1.0) == lo' * n + lo';
    assert hi' * (n + 1.0) == hi' * n + hi';
  }
}
