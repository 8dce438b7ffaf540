/** Heading arithmetic of the AI controller. Headings are in degrees and
    unbounded; Python's float `%` takes the sign of the divisor, so
    `a % 360` lies in [0, 360) also for negative `a`. */
module Angles {

  /** `d` is a whole number of turns (a multiple of 360 degrees). */
  predicate WholeTurns(d: real) {
    ((d / 360.0).Floor as real) == d / 360.0
  }

  /** Python's `a % 360` for a float `a`: the representative of `a` modulo a
      full turn that lies in [0, 360). */
  function Mod360(a: real): (r: real)
    ensures 0.0 <= r < 360.0
    ensures WholeTurns(a - r)
  {
    var q := (a / 360.0).Floor;
    assert q as real <= a / 360.0 < q as real + 1.0;
    assert 360.0 * (q as real) <= a < 360.0 * (q as real) + 360.0;
    var r := a - 360.0 * (q as real);
    assert (a - r) / 360.0 == q as real;
    assert (q as real).Floor == q;
    assert WholeTurns(a - r);
    r
  }

  /** The normalisation of tank.py: `a % 360`, then minus 360 when the result
      is above 180. It gives the signed shortest rotation equivalent to `a`. */
  function AngleDiff(a: real): (r: real)
    ensures -180.0 < r <= 180.0
    ensures WholeTurns(a - r)
  {
    var m := Mod360(a);
    if m > 180.0 then
      var q := ((a - m) / 360.0).Floor;
      assert (a - (m - 360.0)) / 360.0 == (q + 1) as real;
      m - 360.0
    else m
  }

  /** The result of AngleDiff is the ONLY angle in (-180, 180] that differs
      from `a` by whole turns. */
  lemma AngleDiffUnique(a: real, r: real)
    requires -180.0 < r <= 180.0
    requires WholeTurns(a - r)
    ensures AngleDiff(a) == r
  {
    var d := AngleDiff(a);
    var k := ((a - r) / 360.0).Floor;
    var m := ((a - d) / 360.0).Floor;
    assert a - r == 360.0 * (k as real);
    assert a - d == 360.0 * (m as real);
    assert d - r == 360.0 * ((k - m) as real);
    assert -1 < k - m < 1;
  }

  /** A difference already in (-180, 180] is left as it is. */
  lemma AngleDiffInRange(a: real)
    requires -180.0 < a <= 180.0
    ensures AngleDiff(a) == a
  {
    assert (a - a) / 360.0 == 0 as real;
    AngleDiffUnique(a, a);
  }

  /** Whole turns plus whole turns are whole turns. */
  lemma WholeTurnsShift(x: real, turns: int)
    requires WholeTurns(x)
    ensures WholeTurns(x + 360.0 * (turns as real))
  {
    var k := (x / 360.0).Floor;
    var y := x + 360.0 * (turns as real);
    assert x / 360.0 == k as real;
    assert y / 360.0 == x / 360.0 + turns as real;
    assert y / 360.0 == (k + turns) as real;
    assert ((k + turns) as real).Floor == k + turns;
  }

  /** Adding whole turns to a heading does not change the rotation chosen. */
  lemma AngleDiffPeriodic(a: real, turns: int)
    ensures AngleDiff(a + 360.0 * (turns as real)) == AngleDiff(a)
  {
    var d := AngleDiff(a);
    var shifted := a + 360.0 * (turns as real);
    WholeTurnsShift(a - d, turns);
    assert shifted - d == (a - d) + 360.0 * (turns as real);
    AngleDiffUnique(shifted, d);
  }
}
