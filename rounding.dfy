/** Python's `round(x, 2)`, taken on exact reals rather than binary floats. */
module Rounding {

  /** True when `x` is a whole number of hundredths. */
  predicate IsCents(x: real) {
    (x * 100.0).Floor as real == x * 100.0
  }

  /** Rounds to the nearest hundredth; a value exactly halfway between two hundredths
      goes to the even one, as Python does for values it represents exactly. */
  function Round2(x: real): (r: real)
    ensures IsCents(r)
    ensures -0.005 <= r - x <= 0.005
  {
    var y := x * 100.0;
    var f := y.Floor;
    var d := y - f as real;
    var n := if d > 0.5 then f + 1
             else if d < 0.5 then f
             else if f % 2 == 0 then f else f + 1;
    assert (n as real / 100.0) * 100.0 == n as real;
    n as real / 100.0
  }

  /** A value that already is a whole number of hundredths is left as it is. */
  lemma Round2OfCents(x: real)
    requires IsCents(x)
    ensures Round2(x) == x
  {
    var y := x * 100.0;
    assert y.Floor as real == y;
    assert y - y.Floor as real == 0.0;
  }

  /** Rounding twice is rounding once. */
  lemma Round2Idempotent(x: real)
    ensures Round2(Round2(x)) == Round2(x)
  {
    Round2OfCents(Round2(x));
  }

  /** Rounding never reverses the order of two values. */
  lemma Round2Monotone(x: real, y: real)
    requires x <= y
    ensures Round2(x) <= Round2(y)
  {
    var fx, fy := (x * 100.0).Floor, (y * 100.0).Floor;
    assert fx <= fy;
    var dx, dy := x * 100.0 - fx as real, y * 100.0 - fy as real;
    var nx := if dx > 0.5 then fx + 1 else if dx < 0.5 then fx else if fx % 2 == 0 then fx else fx + 1;
    var ny := if dy > 0.5 then fy + 1 else if dy < 0.5 then fy else if fy % 2 == 0 then fy else fy + 1;
    assert Round2(x) == nx as real / 100.0;
    assert Round2(y) == ny as real / 100.0;
    if fx == fy {
      assert dx <= dy;
      assert nx <= ny;
    } else {
      assert nx <= fx + 1 <= fy <= ny;
    }
  }

  /** A value in [lo, hi] stays in [lo, hi] when both ends are whole hundredths. */
  lemma Round2Within(x: real, lo: real, hi: real)
    requires IsCents(lo) && IsCents(hi)
    requires lo <= x <= hi
    ensures lo <= Round2(x) <= hi
  {
    Round2Monotone(lo, x);
    Round2Monotone(x, hi);
    Round2OfCents(lo);
    Round2OfCents(hi);
  }
}
