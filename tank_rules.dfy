/** The per-field update rules of the tank, as pure functions of the old
    value. The Tank class in TankModel applies them; the lemmas here state
    what the rules guarantee over any number of frames. */
module TankRules {
  import opened Basics
  import opened Angles

  const MaxSpeed: real := 0.5
  const Acceleration: real := 0.1
  /** Coast decay per frame; also the recoil decay per frame. */
  const Deceleration: real := 0.005
  /** Hull rotation per frame while a steering key is held. */
  const HullTurnRate: real := 0.2
  /** Turret rotation per frame while a turret key is held. */
  const TurretTurnRate: real := 0.3
  /** Recoil impulse set on firing; negative because it pushes backwards. */
  const RecoilForce: real := -0.1
  const PushDeceleration: real := 0.05
  /** Milliseconds between two shots. */
  const ShotCooldown: int := 2000
  /** Milliseconds the muzzle flash stays visible. */
  const FlashDuration: int := 50
  /** Distance of the new shell from the tank's centre along the turret axis. */
  const ShellOffset: real := 60.0
  const MaxHealth: int := 100
  const HitDamageMin: int := 30
  const HitDamageMax: int := 50
  const CollisionDamageMin: int := 5
  const CollisionDamageMax: int := 10
  /** Milliseconds of the death sequence. */
  const DeathDuration: int := 5000
  /** Milliseconds between two spawned death explosions. */
  const ExplosionInterval: int := 100
  const ExplosionOffsetMax: int := 30
  const ExplosionDurationMin: int := 300
  const ExplosionDurationMax: int := 700
  /** AI: the hull turns while the heading is off by more than this. */
  const AimTolerance: real := 0.5
  /** AI: hull rotation per frame while turning toward the target. */
  const AiTurnStep: real := 0.3
  /** AI: fraction of the remaining heading error the turret closes per frame. */
  const TurretTrackGain: real := 0.005
  /** AI: the target counts as reached inside this distance. */
  const ArrivalRadius: real := 50.0

  // ---------------------------------------------------------------- speed

  /** Moves `v` toward 0 by `step` without crossing it: the coast decay of
      the forward speed and the decay of the push speed. */
  function TowardZero(v: real, step: real): (r: real)
    requires 0.0 <= step
    ensures 0.0 <= v ==> 0.0 <= r <= v
    ensures v <= 0.0 ==> v <= r <= 0.0
    ensures Abs(r) == Max(0.0, Abs(v) - step)
  {
    if v > 0.0 then Max(0.0, v - step)
    else if v < 0.0 then Min(0.0, v + step)
    else v
  }

  /** The forward speed after one frame of input: up accelerates toward
      +MaxSpeed, down toward -MaxSpeed (only while alive, up taking
      precedence); otherwise the speed coasts toward 0. */
  function SpeedAfterInput(s: real, up: bool, down: bool, health: int): (r: real)
    ensures Abs(s) <= MaxSpeed ==> Abs(r) <= MaxSpeed
    ensures up && health > 0 ==>
      r <= MaxSpeed
      && (s + Acceleration <= MaxSpeed ==> r == s + Acceleration)
      && (MaxSpeed <= s + Acceleration ==> r == MaxSpeed)
    ensures up && health > 0 && s <= MaxSpeed ==> s <= r
    ensures !up && down && health > 0 ==>
      -MaxSpeed <= r
      && (-MaxSpeed <= s - Acceleration ==> r == s - Acceleration)
      && (s - Acceleration <= -MaxSpeed ==> r == -MaxSpeed)
    ensures !up && down && health > 0 && -MaxSpeed <= s ==> r <= s
    ensures (!up && !down) || health <= 0 ==>
      Abs(r) == Max(0.0, Abs(s) - Deceleration)
      && (0.0 <= s ==> 0.0 <= r) && (s <= 0.0 ==> r <= 0.0)
  {
    if up && health > 0 then Min(s + Acceleration, MaxSpeed)
    else if down && health > 0 then Max(s - Acceleration, -MaxSpeed)
    else TowardZero(s, Deceleration)
  }

  /** The recoil speed after one frame: a negative recoil rises toward 0 by
      Deceleration and stops there; a non-negative one is left alone. */
  function RecoilDecay(r: real): (r': real)
    ensures r <= 0.0 ==> r <= r' <= 0.0 && r' - r <= Deceleration
    ensures r <= -Deceleration ==> r' == r + Deceleration
    ensures 0.0 <= r ==> r' == r
  {
    if r < 0.0 then Min(0.0, r + Deceleration) else r
  }

  // ---------------------------------------------------------------- headings

  /** The change of a heading in one frame when one key turns it by `+rate`
      and another by `-rate`; both keys pressed cancel out, and a dead tank
      does not turn. */
  function KeyTurn(plus: bool, minus: bool, rate: real, health: int): (d: real)
    requires 0.0 <= rate
    ensures health <= 0 ==> d == 0.0
    ensures plus == minus ==> d == 0.0
    ensures Abs(d) <= rate
    ensures health > 0 && plus && !minus ==> d == rate
    ensures health > 0 && minus && !plus ==> d == -rate
  {
    (if plus && health > 0 then rate else 0.0) - (if minus && health > 0 then rate else 0.0)
  }

  /** The AI's hull step toward a heading error `diff` that is outside the
      tolerance: a fixed step in the direction of the shorter rotation. */
  function HullStep(diff: real): (d: real)
    ensures Abs(d) == AiTurnStep
    ensures 0.0 < diff ==> 0.0 < d
    ensures diff < 0.0 ==> d < 0.0
  {
    if diff > 0.0 then AiTurnStep else -AiTurnStep
  }

  /** The AI's proportional turret step for a normalised heading error. */
  function TurretStep(diff: real): (d: real)
    ensures -180.0 < diff <= 180.0 ==> Abs(d) <= 0.9
    ensures 0.0 <= diff ==> 0.0 <= d
    ensures diff <= 0.0 ==> d <= 0.0
    ensures Abs(d) <= Abs(diff)
  {
    diff * TurretTrackGain
  }

  /** A turret step never overshoots: whatever the raw bearing error `a`,
      after the step the normalised error keeps its sign and shrinks by the
      factor 1 - TurretTrackGain. */
  lemma TurretStepApproaches(a: real)
    ensures AngleDiff(a - TurretStep(AngleDiff(a))) == (1.0 - TurretTrackGain) * AngleDiff(a)
  {
    var d := AngleDiff(a);
    var rest := (1.0 - TurretTrackGain) * d;
    assert a - TurretStep(d) - rest == a - d;
    AngleDiffUnique(a - TurretStep(d), rest);
  }

  // ---------------------------------------------------------------- firing

  /** The firing gate of `handle_input`: the fire key, the cooldown since the
      last shot (boundary included) and a live tank. */
  predicate MayFire(fire: bool, now: int, lastShot: int, health: int) {
    fire && now - lastShot >= ShotCooldown && health > 0
  }

  // ---------------------------------------------------------------- screen

  /** Screen wraparound of one coordinate: past the far edge it jumps to 0,
      below 0 it jumps to the far edge, otherwise it stays. */
  function Wrap(c: real, bound: real): (r: real)
    ensures 0.0 <= bound ==> 0.0 <= r <= bound
    ensures 0.0 <= c <= bound ==> r == c
    ensures bound < c ==> r == 0.0
    ensures 0.0 <= bound && c < 0.0 ==> r == bound
  {
    if c > bound then 0.0 else if c < 0.0 then bound else c
  }

  /** Wrapping a wrapped coordinate again changes nothing. */
  lemma WrapIdempotent(c: real, bound: real)
    requires 0.0 <= bound
    ensures Wrap(Wrap(c, bound), bound) == Wrap(c, bound)
  {
  }

  // ---------------------------------------------------------------- damage

  /** Health after losing `damage`, floored at 0. */
  function DamagedHealth(health: int, damage: int): (h: int)
    requires 0 <= damage
    ensures 0 <= h
    ensures h <= health || h == 0
    ensures 0 <= health - damage ==> h == health - damage
    ensures h == 0 <==> health <= damage
  {
    MaxInt(0, health - damage)
  }

  // ---------------------------------------------------------------- death explosions

  /** One sub-explosion of the death sequence. `rotation` stands for the
      randomly rotated image, the only part of the image the model keeps. */
  datatype DeathExplosion = DeathExplosion(pos: Vec, startTime: int, duration: int, rotation: int)

  /** An explosion is still shown while its age is below its duration: one
      spawned now with a positive duration is shown, and none is shown once
      its duration has elapsed. */
  predicate Shown(e: DeathExplosion, now: int): (shown: bool)
    ensures now == e.startTime && 0 < e.duration ==> shown
    ensures shown ==> now < e.startTime + e.duration
  {
    now - e.startTime < e.duration
  }

  /** The pruning comprehension of `update_death_animation`: keeps, in order,
      exactly the explosions still shown at `now`. */
  function Live(es: seq<DeathExplosion>, now: int): (r: seq<DeathExplosion>)
    ensures |r| <= |es|
    ensures forall e :: e in r <==> e in es && Shown(e, now)
  {
    if es == [] then []
    else if Shown(es[0], now) then [es[0]] + Live(es[1..], now)
    else Live(es[1..], now)
  }

  /** Pruning a list with one explosion appended prunes the old list and
      keeps the new explosion last if it is still shown. */
  lemma {:induction false} LiveAppend(es: seq<DeathExplosion>, e: DeathExplosion, now: int)
    ensures Live(es + [e], now) == Live(es, now) + (if Shown(e, now) then [e] else [])
  {
    if es == [] {
      assert es + [e] == [e];
    } else {
      assert (es + [e])[1..] == es[1..] + [e];
      LiveAppend(es[1..], e, now);
    }
  }

  /** Pruning at a later time subsumes pruning at an earlier one: expired
      explosions never come back, and pruning twice at once changes nothing. */
  lemma {:induction false} LiveLater(es: seq<DeathExplosion>, t1: int, t2: int)
    requires t1 <= t2
    ensures Live(Live(es, t1), t2) == Live(es, t2)
  {
    if es != [] {
      LiveLater(es[1..], t1, t2);
    }
  }
}
