/** Facts about real multiplication and division shared by the
    statistics, the sampler and the trial counts. */
module RealArith {

  /** The product of two non-negative reals is non-negative. */
  lemma MulNonNegative(a: real, b: real)
    requires 0.0 <= a && 0.0 <= b
    ensures 0.0 <= a * b
  {
  }

  /** A quotient by a positive count inherits the bounds of the dividend. */
  lemma DivBounds(s: real, n: real, lo: real, hi: real)
    requires 0.0 < n && n * lo <= s <= n * hi
    ensures lo <= s / n <= hi
    ensures s / n * n == s
  {
    MulNonNegative(s / n - lo, n);
  }
}
