/** Decimal arithmetic of java.math.BigDecimal, on exact reals.
    Every `divide(x, 4, RoundingMode.HALF_UP)` and `setScale(4, RoundingMode.HALF_UP)`
    of the source is `RoundHalfUp4` here. */
module Decimal {

  /** Number of units in the last place at scale 4. */
  const Units: real := 10000.0

  /** Half a unit in the last place at scale 4. */
  const HalfUnit: real := 0.00005

  /** True when `x` has at most four fractional digits. */
  predicate AtScale4(x: real) {
    (x * Units).Floor as real == x * Units
  }

  /** The integer nearest to `y`, ties away from zero. */
  function NearestHalfUp(y: real): (k: int)
    ensures y >= 0.0 ==> y - 0.5 < k as real <= y + 0.5
    ensures y < 0.0 ==> y - 0.5 <= k as real < y + 0.5
  {
    if y >= 0.0 then (y + 0.5).Floor else -((-y + 0.5).Floor)
  }

  /** Rounds to four fractional digits, ties away from zero (HALF_UP). */
  function RoundHalfUp4(x: real): real {
    NearestHalfUp(x * Units) as real / Units
  }

  /** The rounded value is the multiple of 1/10000 nearest to `x`; at a tie
      the one farther from zero, so the interval it lies in is closed on the
      side away from zero and open on the side towards zero. */
  lemma RoundHalfUp4Nearest(x: real)
    ensures AtScale4(RoundHalfUp4(x))
    ensures x >= 0.0 ==> x - HalfUnit < RoundHalfUp4(x) <= x + HalfUnit
    ensures x < 0.0 ==> x - HalfUnit <= RoundHalfUp4(x) < x + HalfUnit
  {
    var k := NearestHalfUp(x * Units);
    assert (k as real / Units) * Units == k as real;
    assert (k as real).Floor == k;
  }

  /** Rounding keeps the sign: it never turns a non-negative value negative
      or a non-positive value positive. */
  lemma RoundKeepsSign(x: real)
    ensures x >= 0.0 ==> RoundHalfUp4(x) >= 0.0
    ensures x <= 0.0 ==> RoundHalfUp4(x) <= 0.0
  {
  }

  lemma NearestMonotone(y: real, z: real)
    requires y <= z
    ensures NearestHalfUp(y) <= NearestHalfUp(z)
  {
  }

  /** Rounding is monotone. */
  lemma RoundMonotone(x: real, y: real)
    requires x <= y
    ensures RoundHalfUp4(x) <= RoundHalfUp4(y)
  {
    NearestMonotone(x * Units, y * Units);
  }

  /** A value already at scale 4 is left as it is (so rounding is idempotent). */
  lemma RoundAtScale4(x: real)
    requires AtScale4(x)
    ensures RoundHalfUp4(x) == x
  {
    var k := (x * Units).Floor;
    assert NearestHalfUp(x * Units) == k;
  }

  /** HALF_UP is symmetric about zero, unlike rounding half towards positive infinity. */
  lemma RoundSymmetric(x: real)
    ensures RoundHalfUp4(-x) == -RoundHalfUp4(x)
  {
    if x > 0.0 {
      assert NearestHalfUp(-x * Units) == -NearestHalfUp(x * Units);
    } else if x < 0.0 {
      assert NearestHalfUp(x * Units) == -NearestHalfUp(-x * Units);
    }
  }

  /** Ties are rounded away from zero on both sides. */
  lemma RoundTiesAwayFromZero()
    ensures RoundHalfUp4(0.00005) == 0.0001
    ensures RoundHalfUp4(-0.00005) == -0.0001
    ensures RoundHalfUp4(0.00015) == 0.0002
  {
    assert NearestHalfUp(0.5) == 1;
    assert NearestHalfUp(-0.5) == -1;
    assert NearestHalfUp(1.5) == 2;
  }

  /** Rounding a value in [0, 1] stays in [0, 1]. */
  lemma RoundUnitInterval(x: real)
    requires 0.0 <= x <= 1.0
    ensures 0.0 <= RoundHalfUp4(x) <= 1.0
  {
    RoundMonotone(x, 1.0);
    RoundAtScale4(1.0);
  }
}
