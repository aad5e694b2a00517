/** Java's 32-bit `int`, the width of every quantity and id in the inventory model. */
module JavaInt {

  const TwoTo32: int := 0x1_0000_0000
  const MinInt: int := -0x8000_0000
  const MaxInt: int := 0x7fff_ffff

  /** The values of a Java `int` (and of a non-null `Integer`). */
  type Int32 = x: int | MinInt <= x <= MaxInt

  /**
   * Java's `a + b` on two `int`s: the mathematical sum, wrapped once into the
   * 32-bit range when it overflows.
   */
  function Add(a: Int32, b: Int32): (r: Int32)
    ensures MinInt <= a + b <= MaxInt ==> r == a + b
    ensures (r - (a + b)) % TwoTo32 == 0
  {
    if a + b > MaxInt then a + b - TwoTo32
    else if a + b < MinInt then a + b + TwoTo32
    else a + b
  }

  /** At most one `int` is congruent to a given integer modulo 2^32, so `Add` is the two's-complement sum. */
  lemma AddIsTheOnlyWrappedSum(a: Int32, b: Int32, r: Int32)
    requires (r - (a + b)) % TwoTo32 == 0
    ensures r == Add(a, b)
  {
    var s := Add(a, b);
    assert (r - s) % TwoTo32 == 0 by {
      assert r - s == (r - (a + b)) - (s - (a + b));
    }
    assert -TwoTo32 < r - s < TwoTo32;
  }

  lemma AddZero(a: Int32)
    ensures Add(a, 0) == a
  {
  }

  /** Adding `b` then `c` wraps to the same `int` as adding `b + c` (itself wrapped) once. */
  lemma AddAssociative(a: Int32, b: Int32, c: Int32)
    ensures Add(Add(a, b), c) == Add(a, Add(b, c))
  {
  }

  /** A negative delta that does not overflow lowers the value, with no floor at zero. */
  lemma NegativeDeltaDecreases(a: Int32, d: Int32)
    requires d < 0 && MinInt <= a + d
    ensures Add(a, d) < a
    ensures a + d < 0 ==> Add(a, d) < 0
  {
  }

  /** Below the smallest `int` the sum wraps to the largest one. */
  lemma DecrementBelowMinWraps()
    ensures Add(MinInt, -1) == MaxInt
  {
  }
}
