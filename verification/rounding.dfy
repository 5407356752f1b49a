/** Rounding to two decimal places, as `round(x, 2)` is used for every per-row result. */
module Rounding {

  /** x is a whole number of hundredths. */
  predicate IsCents(x: real) {
    (x * 100.0).Floor as real == x * 100.0
  }

  /** Rounds to the nearest hundredth, halves upward. */
  function Round2(x: real): (r: real)
    ensures IsCents(r)
    ensures x - 0.005 < r <= x + 0.005
  {
    (x * 100.0 + 0.5).Floor as real / 100.0
  }

  /** Round2 is the only whole number of hundredths in the window (x - 0.005, x + 0.005]. */
  lemma Round2Unique(x: real, c: real)
    requires IsCents(c)
    requires x - 0.005 < c <= x + 0.005
    ensures c == Round2(x)
  {
    var k := (c * 100.0).Floor;
    assert k as real <= x * 100.0 + 0.5 < k as real + 1.0;
    assert (x * 100.0 + 0.5).Floor == k;
  }

  /** A value already in hundredths is left unchanged, so rounding is idempotent. */
  lemma Round2OfCents(x: real)
    requires IsCents(x)
    ensures Round2(x) == x
  {
    Round2Unique(x, x);
  }

  lemma Round2Idempotent(x: real)
    ensures Round2(Round2(x)) == Round2(x)
  {
    Round2OfCents(Round2(x));
  }

  /** Sums of hundredths are hundredths. */
  lemma CentsAdd(a: real, b: real)
    ensures IsCents(a) && IsCents(b) ==> IsCents(a + b)
  {
    if IsCents(a) && IsCents(b) {
      var i := (a * 100.0).Floor;
      var j := (b * 100.0).Floor;
      assert (a + b) * 100.0 == (i + j) as real;
    }
  }
}
