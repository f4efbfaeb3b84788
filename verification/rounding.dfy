/** Rounding a real to one decimal place.

    The formulas end with Python's `round(x, 1)`, which works on binary
    floating point and breaks ties to even. Over the reals the model rounds
    halves up instead. No contract of the five formulas depends on how an
    exact tie is broken; the half-open window of `Round1` and
    `RoundCharacterised` below are specific to rounding halves up. */
module Rounding {

  /** `x` is a whole number of tenths. */
  predicate IsTenths(x: real) {
    (x * 10.0).Floor as real == x * 10.0
  }

  /** The nearest whole number of tenths, halves rounded up. */
  function Round1(x: real): (r: real)
    ensures IsTenths(r)
    ensures r - 0.05 <= x < r + 0.05
  {
    ((x * 10.0 + 0.5).Floor as real) / 10.0
  }

  /** Round1 picks the one tenth whose half-open window holds `x`: the
      result is characterised without reference to the formula above. */
  lemma RoundCharacterised(x: real, y: real)
    requires IsTenths(y)
    ensures Round1(x) == y <==> y - 0.05 <= x < y + 0.05
  {
    var r := Round1(x);
    if y - 0.05 <= x < y + 0.05 {
      var n := (r * 10.0).Floor;
      var m := (y * 10.0).Floor;
      assert n as real == r * 10.0;
      assert m as real == y * 10.0;
      assert (n - m) as real < 1.0 && (m - n) as real < 1.0;
    }
  }

  /** A value that already is a whole number of tenths is left alone. */
  lemma RoundFixesTenths(x: real)
    requires IsTenths(x)
    ensures Round1(x) == x
  {
    RoundCharacterised(x, x);
  }

  /** Rounding never reverses the order of two inputs. */
  lemma RoundMonotone(x: real, y: real)
    requires x <= y
    ensures Round1(x) <= Round1(y)
  {
    var a := (x * 10.0 + 0.5).Floor;
    var b := (y * 10.0 + 0.5).Floor;
    assert x * 10.0 <= y * 10.0;
    assert a as real <= x * 10.0 + 0.5 <= y * 10.0 + 0.5 < (b + 1) as real;
    assert a <= b;
  }

  /** A bound that is a whole number of tenths survives rounding: this is
      how "the components sum to at most 10" becomes "the score is at
      most 10". */
  lemma RoundKeepsTenthsBounds(x: real, lo: real, hi: real)
    requires IsTenths(lo) && IsTenths(hi)
    ensures lo <= x ==> lo <= Round1(x)
    ensures x <= hi ==> Round1(x) <= hi
  {
    if lo <= x {
      RoundMonotone(lo, x);
      RoundFixesTenths(lo);
    }
    if x <= hi {
      RoundMonotone(x, hi);
      RoundFixesTenths(hi);
    }
  }
}
