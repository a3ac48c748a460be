/** Numeric helpers: the source's `min`/`max` clamps, `round(x, 1)`, and day and hour arithmetic. */
module Numeric {

  function Min(a: real, b: real): real { if a <= b then a else b }
  function Max(a: real, b: real): real { if a >= b then a else b }
  function MinInt(a: int, b: int): int { if a <= b then a else b }
  function MaxInt(a: int, b: int): int { if a >= b then a else b }

  lemma ClampInside(lo: real, hi: real, x: real)
    requires lo <= x <= hi
    ensures Clamp(lo, hi, x) == x
  {
  }

  /** `min(hi, max(lo, x))`. */
  function Clamp(lo: real, hi: real, x: real): (r: real)
    requires lo <= hi
    ensures lo <= r <= hi
    ensures lo <= x <= hi ==> r == x
  {
    Min(hi, Max(lo, x))
  }

  /**
   * `round(x, 1)`, taken here as rounding half up to one decimal place. Python rounds
   * the binary double half to even, which differs only on exact ties.
   */
  function Round1(x: real): real {
    ((x * 10.0 + 0.5).Floor as real) / 10.0
  }

  /** Rounding never moves a value by more than half a tenth. */
  lemma Round1Close(x: real)
    ensures x - 0.05 < Round1(x) <= x + 0.05
  {
  }

  lemma Round1Monotone(x: real, y: real)
    requires x <= y
    ensures Round1(x) <= Round1(y)
  {
    assert (x * 10.0 + 0.5).Floor <= (y * 10.0 + 0.5).Floor;
  }

  /** A value that already has one decimal place is left alone. */
  lemma Round1Tenths(k: int)
    ensures Round1(k as real / 10.0) == k as real / 10.0
  {
    var y := k as real / 10.0;
    assert y * 10.0 == k as real;
    var f := (y * 10.0 + 0.5).Floor;
    assert f as real <= k as real + 0.5 < f as real + 1.0;
    assert f == k;
  }

  /** Rounding keeps a percentage within 0..100. */
  lemma Round1Percent(x: real)
    requires 0.0 <= x <= 100.0
    ensures 0.0 <= Round1(x) <= 100.0
  {
    Round1Monotone(0.0, x);
    Round1Monotone(x, 100.0);
    Round1Tenths(0);
    Round1Tenths(1000);
  }

  /** `a / b * 100` with Python's true division. */
  function Percent(a: int, b: int): real
    requires b != 0
  {
    (a as real) / (b as real) * 100.0
  }

  /** The whole is 100 percent of itself. */
  lemma PercentWhole(b: int)
    requires b > 0
    ensures Percent(b, b) == 100.0
  {
    var x := b as real;
    assert x / x == 1.0;
  }

  /** A part of a positive whole is between 0 and 100 percent of it. */
  lemma PercentBounds(a: int, b: int)
    requires 0 <= a <= b && b > 0
    ensures 0.0 <= Percent(a, b) <= 100.0
  {
    assert (a as real) / (b as real) <= 1.0;
  }

  /** `(later - earlier).days` for timestamps in seconds: whole days, rounded towards minus infinity. */
  function DaysBetween(later: int, earlier: int): int {
    (later - earlier) / 86400
  }

  /** `int((later - earlier).total_seconds() / 3600)`: whole hours, truncated towards zero. */
  function HoursBetween(later: int, earlier: int): int {
    var d := later - earlier;
    if d >= 0 then d / 3600 else -((-d) / 3600)
  }

  /** `int(x)` on a float: truncation towards zero. */
  function Trunc(x: real): int {
    if x >= 0.0 then x.Floor else -((-x).Floor)
  }
}
