/**
 * The stand-in for `Math.random()`: every random number the components draw
 * is passed in as a parameter in [0, 1), and these facts scale it.
 */
module RandomDraws {
  /** What `Math.random()` can return. */
  predicate IsUnitDraw(r: real) {
    0.0 <= r < 1.0
  }

  lemma ProductNonNegative(a: real, b: real)
    requires a >= 0.0 && b >= 0.0
    ensures a * b >= 0.0
  {
  }

  /** A draw scaled by a non-negative bound stays in [0, bound], and below it when the bound is positive. */
  lemma UnitScaleBelow(r: real, bound: real, scaled: real)
    requires IsUnitDraw(r) && bound >= 0.0 && scaled == r * bound
    ensures 0.0 <= scaled <= bound
    ensures bound > 0.0 ==> scaled < bound
  {
    ProductNonNegative(r, bound);
    ProductNonNegative(1.0 - r, bound);
    if bound > 0.0 {
      assert (1.0 - r) * bound > 0.0;
    }
  }
}
