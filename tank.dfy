/** The combat vehicle: kinematic state, firing, health and the death
    sequence, updated in place once per frame, and the AI steering steps.

    Outside inputs are parameters: `now` is the millisecond clock, the
    random rolls are arguments constrained to the ranges the source draws
    them from, `heading(t)` is the unit vector (cos(-t deg), sin(-t deg))
    the source builds with math.cos/math.sin, `unit(v)` is the direction of
    `v` the source obtains through math.atan2, and target bearings and
    distances are given rather than computed. */
module TankModel {
  import opened Basics
  import opened Angles
  import opened TankRules
  import opened ProjectileModel

  /** The keys `handle_input` reads. */
  datatype Keys = Keys(up: bool, down: bool, left: bool, right: bool,
                       q: bool, a: bool, e: bool, d: bool, w: bool)

  class Tank {
    var position: Vec
    var currentSpeed: real
    var bodyAngle: real
    var turretAngle: real
    var flashVisible: bool
    var flashStartTime: int
    var recoilSpeed: real
    var lastShotTime: int
    var pushSpeed: real
    var pushDirection: Option<Vec>
    var health: int
    var isDying: bool
    var deathStartTime: int
    var deathExplosions: seq<DeathExplosion>
    var deathNextExplosion: int
    /** How many times the one-shot destruction sound has been triggered. */
    ghost var destructionEvents: nat

    /** What every method keeps: health within [0, MaxHealth], speed within
        the envelope, recoil never positive, and only a dead tank dying. */
    ghost predicate Valid()
      reads this
    {
      && 0 <= health <= MaxHealth
      && Abs(currentSpeed) <= MaxSpeed
      && recoilSpeed <= 0.0
      && (isDying ==> health == 0)
    }

    /** The heading of the gun barrel, in the source's frame. */
    function FiringAngle(): real
      reads this
    {
      bodyAngle + turretAngle + 90.0
    }

    constructor (x: real, y: real)
      ensures Valid()
      ensures position == Vec(x, y)
      ensures currentSpeed == 0.0 && bodyAngle == 0.0 && turretAngle == -90.0
      ensures !flashVisible && flashStartTime == 0
      ensures recoilSpeed == 0.0 && lastShotTime == 0
      ensures pushSpeed == 0.0 && pushDirection == None
      ensures health == MaxHealth && !isDying && deathStartTime == 0
      ensures deathExplosions == [] && deathNextExplosion == 0
      ensures destructionEvents == 0
    {
      position := Vec(x, y);
      currentSpeed := 0.0;
      bodyAngle := 0.0;
      turretAngle := -90.0;
      flashVisible := false;
      flashStartTime := 0;
      recoilSpeed := 0.0;
      lastShotTime := 0;
      pushSpeed := 0.0;
      pushDirection := None;
      health := MaxHealth;
      isDying := false;
      deathStartTime := 0;
      deathExplosions := [];
      deathNextExplosion := 0;
      destructionEvents := 0;
    }

    /** One frame of motion: drive along the hull, recoil along the gun axis
        and push along the stored push direction are added to the position;
        the push and recoil speeds then decay one step, the muzzle flash goes
        out once older than FlashDuration, and the position wraps around the
        screen. A push direction that is absent or the zero vector moves
        nothing (a zero pygame vector is false). */
    method UpdatePosition(width: real, height: real, now: int,
                          heading: real -> Vec, unit: Vec -> Vec)
      requires Valid()
      modifies this`position, this`pushSpeed, this`recoilSpeed, this`flashVisible
      ensures Valid()
      ensures var drive := Scale(old(currentSpeed), heading(old(bodyAngle)));
              var recoil := Scale(old(recoilSpeed), heading(old(FiringAngle())));
              var push := if old(pushDirection).Some? && old(pushDirection).value != Zero
                          then Scale(old(pushSpeed), unit(old(pushDirection).value)) else Zero;
              var moved := Add(Add(Add(old(position), drive), recoil), push);
              position == Vec(Wrap(moved.x, width), Wrap(moved.y, height))
      ensures pushSpeed == TowardZero(old(pushSpeed), PushDeceleration)
      ensures recoilSpeed == RecoilDecay(old(recoilSpeed))
      ensures flashVisible <==> old(flashVisible) && now - flashStartTime <= FlashDuration
    {
      position := Add(position, Scale(currentSpeed, heading(bodyAngle)));
      position := Add(position, Scale(recoilSpeed, heading(FiringAngle())));
      if pushDirection.Some? && pushDirection.value != Zero {
        position := Add(position, Scale(pushSpeed, unit(pushDirection.value)));
      }
      pushSpeed := TowardZero(pushSpeed, PushDeceleration);
      recoilSpeed := RecoilDecay(recoilSpeed);
      if flashVisible && now - flashStartTime > FlashDuration {
        flashVisible := false;
      }
      HandleScreenWrap(width, height);
    }

    /** Sets the push impulse, replacing any earlier one. */
    method ApplyPush(direction: Option<Vec>, strength: real)
      requires Valid()
      modifies this`pushSpeed, this`pushDirection
      ensures Valid()
      ensures pushSpeed == strength && pushDirection == direction
    {
      pushSpeed := strength;
      pushDirection := direction;
    }

    /** One frame of player input: speed envelope, hull and turret rotation
        (only while alive), and the cooldown-gated shot. A shot starts at
        ShellOffset along the gun axis and inherits the tank's forward speed
        along the hull, both taken after this frame's speed and rotation
        updates. */
    method HandleInput(keys: Keys, now: int, heading: real -> Vec)
      returns (shot: Option<Projectile>)
      requires Valid()
      modifies this`currentSpeed, this`bodyAngle, this`turretAngle, this`flashVisible,
               this`flashStartTime, this`lastShotTime, this`recoilSpeed
      ensures Valid()
      ensures currentSpeed == SpeedAfterInput(old(currentSpeed), keys.up, keys.down, health)
      ensures bodyAngle == old(bodyAngle) + KeyTurn(keys.left, keys.right, HullTurnRate, health)
      ensures turretAngle == old(turretAngle)
                             + KeyTurn(keys.q || keys.a, keys.e || keys.d, TurretTurnRate, health)
      ensures shot.Some? <==> MayFire(keys.w, now, old(lastShotTime), health)
      ensures shot.Some? ==> fresh(shot.value)
      ensures shot.Some? ==>
        lastShotTime == now && flashStartTime == now && flashVisible && recoilSpeed == RecoilForce
      ensures shot.Some? ==>
        shot.value.position == Add(position, Scale(ShellOffset, heading(FiringAngle())))
      ensures shot.Some? ==>
        shot.value.angle == FiringAngle()
        && shot.value.velocity
           == LaunchVelocity(FiringAngle(), ShellSpeed, currentSpeed, bodyAngle, heading)
      ensures shot.Some? ==> shot.value.distanceTraveled == 0.0 && shot.value.maxDistance == MaxRange
      ensures shot.None? ==>
        && lastShotTime == old(lastShotTime) && flashStartTime == old(flashStartTime)
        && flashVisible == old(flashVisible) && recoilSpeed == old(recoilSpeed)
    {
      Drive(keys);
      shot := None;
      if keys.w && now - lastShotTime >= ShotCooldown && health > 0 {
        var p := Fire(now, heading);
        shot := Some(p);
      }
    }

    /** The throttle and steering part of `handle_input`. */
    method Drive(keys: Keys)
      requires Valid()
      modifies this`currentSpeed, this`bodyAngle, this`turretAngle
      ensures Valid()
      ensures currentSpeed == SpeedAfterInput(old(currentSpeed), keys.up, keys.down, health)
      ensures bodyAngle == old(bodyAngle) + KeyTurn(keys.left, keys.right, HullTurnRate, health)
      ensures turretAngle == old(turretAngle)
                             + KeyTurn(keys.q || keys.a, keys.e || keys.d, TurretTurnRate, health)
    {
      if keys.up && health > 0 {
        currentSpeed := Min(currentSpeed + Acceleration, MaxSpeed);
      } else if keys.down && health > 0 {
        currentSpeed := Max(currentSpeed - Acceleration, -MaxSpeed);
      } else {
        currentSpeed := TowardZero(currentSpeed, Deceleration);
      }
      assert currentSpeed == SpeedAfterInput(old(currentSpeed), keys.up, keys.down, health);

      if keys.left && health > 0 {
        bodyAngle := bodyAngle + HullTurnRate;
      }
      if keys.right && health > 0 {
        bodyAngle := bodyAngle - HullTurnRate;
      }
      assert bodyAngle == old(bodyAngle) + KeyTurn(keys.left, keys.right, HullTurnRate, health);

      if (keys.q || keys.a) && health > 0 {
        turretAngle := turretAngle + TurretTurnRate;
      }
      if (keys.e || keys.d) && health > 0 {
        turretAngle := turretAngle - TurretTurnRate;
      }
      assert turretAngle == old(turretAngle)
                            + KeyTurn(keys.q || keys.a, keys.e || keys.d, TurretTurnRate, health);
    }

    /** The firing branch of `handle_input`: muzzle flash, shot time, recoil
        impulse and a new shell at the muzzle. */
    method Fire(now: int, heading: real -> Vec) returns (p: Projectile)
      requires Valid()
      modifies this`flashVisible, this`flashStartTime, this`lastShotTime, this`recoilSpeed
      ensures Valid()
      ensures fresh(p)
      ensures lastShotTime == now && flashStartTime == now && flashVisible
      ensures recoilSpeed == RecoilForce
      ensures p.position == Add(position, Scale(ShellOffset, heading(FiringAngle())))
      ensures p.angle == FiringAngle()
      ensures p.velocity == LaunchVelocity(FiringAngle(), ShellSpeed, currentSpeed, bodyAngle, heading)
      ensures p.distanceTraveled == 0.0 && p.maxDistance == MaxRange
    {
      flashVisible := true;
      flashStartTime := now;
      lastShotTime := now;
      recoilSpeed := RecoilForce;
      var shellPos := Add(position, Scale(ShellOffset, heading(FiringAngle())));
      p := new Projectile(shellPos.x, shellPos.y, FiringAngle(), currentSpeed, bodyAngle, heading);
    }

    /** Wraps the position around a screen of the given size. */
    method HandleScreenWrap(width: real, height: real)
      modifies this`position
      ensures position == Vec(Wrap(old(position).x, width), Wrap(old(position).y, height))
    {
      if position.x > width {
        position := position.(x := 0.0);
      } else if position.x < 0.0 {
        position := position.(x := width);
      }
      if position.y > height {
        position := position.(y := 0.0);
      } else if position.y < 0.0 {
        position := position.(y := height);
      }
    }

    /** A direct hit: `roll` is the damage drawn from [30, 50]. */
    method TakeDamage(roll: int, now: int) returns (damage: int)
      requires Valid()
      requires HitDamageMin <= roll <= HitDamageMax
      modifies this`health, this`isDying, this`deathStartTime, this`destructionEvents
      ensures Valid()
      ensures damage == roll
      ensures health == DamagedHealth(old(health), roll)
      ensures DeathEntered(old(isDying), old(deathStartTime), old(destructionEvents), now)
    {
      damage := roll;
      ApplyDamage(damage, now);
    }

    /** A tank-on-tank collision: `roll` is the damage drawn from [5, 10]. */
    method TakeCollisionDamage(roll: int, now: int) returns (damage: int)
      requires Valid()
      requires CollisionDamageMin <= roll <= CollisionDamageMax
      modifies this`health, this`isDying, this`deathStartTime, this`destructionEvents
      ensures Valid()
      ensures damage == roll
      ensures health == DamagedHealth(old(health), roll)
      ensures DeathEntered(old(isDying), old(deathStartTime), old(destructionEvents), now)
    {
      damage := roll;
      ApplyDamage(damage, now);
    }

    /** The death bookkeeping after damage: the sequence starts whenever
        health is 0 after the damage and the tank is not dying, so an ongoing
        sequence keeps its start time, while a tank at 0 health whose sequence
        has already ended starts a new one on its next hit. */
    ghost predicate DeathEntered(dying0: bool, start0: int, events0: nat, now: int)
      reads this
    {
      if health == 0 && !dying0 then
        isDying && deathStartTime == now && destructionEvents == events0 + 1
      else
        isDying == dying0 && deathStartTime == start0 && destructionEvents == events0
    }

    /** The damage step shared by both kinds of damage. */
    method ApplyDamage(damage: int, now: int)
      requires Valid()
      requires 0 <= damage
      modifies this`health, this`isDying, this`deathStartTime, this`destructionEvents
      ensures Valid()
      ensures health == DamagedHealth(old(health), damage)
      ensures DeathEntered(old(isDying), old(deathStartTime), old(destructionEvents), now)
    {
      health := DamagedHealth(health, damage);
      if health == 0 && !isDying {
        StartDeathSequence(now);
      }
    }

    /** Enters the death sequence unconditionally and emits the destruction
        sound event. The guard against restarting lives in the callers. */
    method StartDeathSequence(now: int)
      modifies this`isDying, this`deathStartTime, this`destructionEvents
      ensures isDying && deathStartTime == now
      ensures destructionEvents == old(destructionEvents) + 1
    {
      isDying := true;
      deathStartTime := now;
      destructionEvents := destructionEvents + 1;
    }

    /** One frame of the death sequence. Nothing happens unless dying; after
        DeathDuration the sequence ends and the explosion list is left as it
        is; otherwise at most one explosion is added (when the spawn time has
        passed; `xOffset`, `yOffset`, `rotation` and `duration` are its random
        rolls) and the list is pruned to the explosions still shown. */
    method UpdateDeathAnimation(now: int, xOffset: int, yOffset: int, rotation: int, duration: int)
      requires Valid()
      requires -ExplosionOffsetMax <= xOffset <= ExplosionOffsetMax
      requires -ExplosionOffsetMax <= yOffset <= ExplosionOffsetMax
      requires 0 <= rotation <= 360
      requires ExplosionDurationMin <= duration <= ExplosionDurationMax
      modifies this`isDying, this`deathExplosions, this`deathNextExplosion
      ensures Valid()
      ensures !old(isDying) ==>
        !isDying && deathExplosions == old(deathExplosions)
        && deathNextExplosion == old(deathNextExplosion)
      ensures old(isDying) && now - deathStartTime > DeathDuration ==>
        !isDying && deathExplosions == old(deathExplosions)
        && deathNextExplosion == old(deathNextExplosion)
      ensures old(isDying) && now - deathStartTime <= DeathDuration ==>
        var spawn := now > old(deathNextExplosion);
        var spawned := DeathExplosion(Add(position, Vec(xOffset as real, yOffset as real)),
                                    now, duration, rotation);
        && isDying
        && deathNextExplosion == (if spawn then now + ExplosionInterval else old(deathNextExplosion))
        && deathExplosions == Live(old(deathExplosions), now) + (if spawn then [spawned] else [])
        && (forall e :: e in deathExplosions ==> Shown(e, now))
    {
      if !isDying {
        return;
      }
      if now - deathStartTime > DeathDuration {
        isDying := false;
        return;
      }
      var spawn := now > deathNextExplosion;
      var spawned := DeathExplosion(Add(position, Vec(xOffset as real, yOffset as real)),
                                  now, duration, rotation);
      if spawn {
        deathNextExplosion := now + ExplosionInterval;
        deathExplosions := deathExplosions + [spawned];
      }
      LiveAppend(old(deathExplosions), spawned, now);
      deathExplosions := Live(deathExplosions, now);
    }

    /** One AI steering frame toward a target at bearing `targetAngle`
        (degrees, the source's -atan2 convention) and distance
        `targetDistance`. A dead tank only slows (a reverse speed snaps to 0);
        a heading off by more than AimTolerance turns the hull one fixed step
        the shorter way; otherwise the tank accelerates and reports whether
        the target is within ArrivalRadius. */
    method MoveToTarget(targetAngle: real, targetDistance: real) returns (reached: bool)
      requires Valid()
      modifies this`currentSpeed, this`bodyAngle
      ensures Valid()
      ensures old(health) <= 0 ==>
        !reached && currentSpeed == Max(old(currentSpeed) - Deceleration, 0.0)
        && bodyAngle == old(bodyAngle)
      ensures old(health) > 0 && Abs(AngleDiff(targetAngle - old(bodyAngle))) > AimTolerance ==>
        !reached && currentSpeed == old(currentSpeed)
        && bodyAngle == old(bodyAngle) + HullStep(AngleDiff(targetAngle - old(bodyAngle)))
      ensures old(health) > 0 && Abs(AngleDiff(targetAngle - old(bodyAngle))) <= AimTolerance ==>
        bodyAngle == old(bodyAngle)
        && currentSpeed == SpeedAfterInput(old(currentSpeed), true, false, health)
        && (reached <==> targetDistance < ArrivalRadius)
    {
      if health <= 0 {
        currentSpeed := Max(currentSpeed - Deceleration, 0.0);
        return false;
      }
      var angleDiff := AngleDiff(targetAngle - bodyAngle);
      if Abs(angleDiff) > AimTolerance {
        bodyAngle := bodyAngle + HullStep(angleDiff);
        return false;
      }
      currentSpeed := Min(currentSpeed + Acceleration, MaxSpeed);
      reached := targetDistance < ArrivalRadius;
    }

    /** One AI aiming frame: the turret closes the fraction TurretTrackGain of
        the shortest rotation from the barrel's heading to `targetAngle`; a
        dead tank does not aim. */
    method AimTurretAt(targetAngle: real)
      requires Valid()
      modifies this`turretAngle
      ensures Valid()
      ensures old(health) <= 0 ==> turretAngle == old(turretAngle)
      ensures old(health) > 0 ==>
        turretAngle == old(turretAngle) + TurretStep(AngleDiff(targetAngle - old(FiringAngle())))
        && Abs(turretAngle - old(turretAngle)) <= 0.9
    {
      if health <= 0 {
        return;
      }
      var angleDiff := AngleDiff(targetAngle - FiringAngle());
      turretAngle := turretAngle + TurretStep(angleDiff);
    }
  }
}
