/** A shell in flight: constant-velocity straight-line motion with a range
    limit on the accumulated travel distance. */
module ProjectileModel {
  import opened Basics

  /** The shell's own speed along its launch heading (the default of the
      `speed` argument). */
  const ShellSpeed: real := 5.0
  /** The range after which `update` reports the shell inactive. */
  const MaxRange: real := 500.0

  /** The shell's launch velocity: its own speed along the launch heading plus
      the firing tank's forward speed along the hull heading. `heading(t)` is
      the unit vector (cos(-t deg), sin(-t deg)) that the source computes with
      math.cos and math.sin. A tank at rest adds nothing, and a shell fired
      along the hull moves at the sum of the two speeds. */
  function LaunchVelocity(angle: real, speed: real, tankSpeed: real, bodyAngle: real,
                          heading: real -> Vec): (v: Vec)
    ensures tankSpeed == 0.0 ==> v == Scale(speed, heading(angle))
    ensures angle == bodyAngle ==> v == Scale(speed + tankSpeed, heading(angle))
  {
    Add(Scale(speed, heading(angle)), Scale(tankSpeed, heading(bodyAngle)))
  }

  class Projectile {
    var position: Vec
    /** Launch heading in degrees, used only to rotate the image. */
    const angle: real
    const speed: real
    /** Fixed at construction: a `const` field, so no method can change it. */
    const velocity: Vec
    var distanceTraveled: real
    const maxDistance: real

    constructor (x: real, y: real, angle: real, tankSpeed: real, bodyAngle: real,
                 heading: real -> Vec, speed: real := ShellSpeed)
      ensures position == Vec(x, y)
      ensures this.angle == angle && this.speed == speed
      ensures velocity == LaunchVelocity(angle, speed, tankSpeed, bodyAngle, heading)
      ensures distanceTraveled == 0.0
      ensures maxDistance == MaxRange
    {
      position := Vec(x, y);
      this.angle := angle;
      this.speed := speed;
      velocity := LaunchVelocity(angle, speed, tankSpeed, bodyAngle, heading);
      distanceTraveled := 0.0;
      maxDistance := MaxRange;
    }

    /** One tick of flight. `len` is `velocity.length()`: the requires pins it
        down as the non-negative square root of the squared length. The result
        is true while the shell is still within range, the boundary included. */
    method Update(len: real) returns (active: bool)
      requires 0.0 <= len && len * len == SquaredLength(velocity)
      modifies this`position, this`distanceTraveled
      ensures position == Add(old(position), velocity)
      ensures distanceTraveled == Traveled(old(distanceTraveled), len, 1)
      ensures distanceTraveled >= old(distanceTraveled)
      ensures active <==> distanceTraveled <= maxDistance
    {
      position := Add(position, velocity);
      distanceTraveled := distanceTraveled + len;
      active := distanceTraveled <= maxDistance;
    }
  }

  /** The distance recorded after `n` calls of Update that each add `len`,
      starting from `start`. */
  function Traveled(start: real, len: real, n: nat): (d: real)
    ensures 0.0 <= len ==> start <= d
  {
    if n == 0 then start else Traveled(start, len, n - 1) + len
  }

  /** After n updates from launch the shell has travelled exactly n times
      the length of its velocity. */
  lemma {:induction false} TraveledClosedForm(start: real, len: real, n: nat)
    ensures Traveled(start, len, n) == start + (n as real) * len
  {
    if n > 0 {
      TraveledClosedForm(start, len, n - 1);
      assert (n as real) * len == ((n - 1) as real) * len + len;
    }
  }

  /** The travelled distance never decreases from one update to a later one. */
  lemma {:induction false} TraveledMonotone(start: real, len: real, n: nat, m: nat)
    requires 0.0 <= len && n <= m
    ensures Traveled(start, len, n) <= Traveled(start, len, m)
  {
    if n < m {
      TraveledMonotone(start, len, n, m - 1);
    }
  }

  /** Once an update has reported the shell out of range, every later update
      does too. */
  lemma ExpiryIsFinal(len: real, n: nat, m: nat)
    requires 0.0 <= len && n <= m
    requires Traveled(0.0, len, n) > MaxRange
    ensures Traveled(0.0, len, m) > MaxRange
  {
    TraveledMonotone(0.0, len, n, m);
  }

  /** The range law over a whole flight: if update n is the last one still in
      range, the updates that report the shell active are exactly 1..n. */
  lemma ActiveUpdatesFormPrefix(len: real, n: nat)
    requires 0.0 <= len
    requires Traveled(0.0, len, n) <= MaxRange < Traveled(0.0, len, n + 1)
    ensures forall m: nat :: Traveled(0.0, len, m) <= MaxRange <==> m <= n
  {
    forall m: nat
      ensures Traveled(0.0, len, m) <= MaxRange <==> m <= n
    {
      if m <= n {
        TraveledMonotone(0.0, len, m, n);
      } else {
        ExpiryIsFinal(len, n + 1, m);
      }
    }
  }
}
