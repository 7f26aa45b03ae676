/** Arithmetic shared by the scorers: clamping into a range and Python's
    `round(x, 1)`, modelled on exact reals. */
module Numeric {

  /** `min(hi, max(lo, x))`. */
  function Clamp(lo: real, hi: real, x: real): (r: real)
    requires lo <= hi
    ensures lo <= r <= hi
    ensures lo <= x <= hi ==> r == x
    ensures x < lo ==> r == lo
    ensures hi < x ==> r == hi
  {
    if x < lo then lo else if hi < x then hi else x
  }

  lemma ClampMonotone(lo: real, hi: real, x: real, y: real)
    requires lo <= hi && x <= y
    ensures Clamp(lo, hi, x) <= Clamp(lo, hi, y)
  {
  }

  /** `x` has at most one decimal digit: it is a whole number of tenths. */
  predicate IsTenth(x: real) {
    (x * 10.0).Floor as real == x * 10.0
  }

  /** `round(x, 1)`: the nearest multiple of 0.1, ties rounded upwards. */
  function RoundTenth(x: real): (r: real)
    ensures IsTenth(r)
    ensures x - 0.05 < r <= x + 0.05
  {
    (x * 10.0 + 0.5).Floor as real / 10.0
  }

  lemma RoundTenthMonotone(x: real, y: real)
    requires x <= y
    ensures RoundTenth(x) <= RoundTenth(y)
  {
    assert (x * 10.0 + 0.5).Floor <= (y * 10.0 + 0.5).Floor;
  }

  /** A number that already has one decimal is left unchanged. */
  lemma RoundTenthOfTenth(x: real)
    requires IsTenth(x)
    ensures RoundTenth(x) == x
  {
    var k := (x * 10.0).Floor;
    assert x * 10.0 + 0.5 == k as real + 0.5;
    assert (x * 10.0 + 0.5).Floor == k;
  }

  /** Rounding keeps a score inside the [1, 10] scale. */
  lemma RoundTenthKeepsScale(x: real)
    requires 1.0 <= x <= 10.0
    ensures 1.0 <= RoundTenth(x) <= 10.0
  {
    RoundTenthOfTenth(1.0);
    RoundTenthOfTenth(10.0);
    RoundTenthMonotone(1.0, x);
    RoundTenthMonotone(x, 10.0);
  }
}
