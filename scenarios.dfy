/** Clients of the Tank class that replay situations of a match using only
    the contracts of its methods, as a caller would. */
module Scenarios {
  import opened Basics
  import opened Angles
  import opened TankRules
  import opened TankModel

  /** The fire key held on two frames less than ShotCooldown apart: the first
      frame fires, the second yields no shell. */
  method FireTwiceWithinCooldown(now: int, later: int, heading: real -> Vec)
    returns (first: bool, second: bool)
    requires ShotCooldown <= now <= later < now + ShotCooldown
    ensures first && !second
  {
    var tank := new Tank(0.0, 0.0);
    var fire := Keys(up := false, down := false, left := false, right := false,
                     q := false, a := false, e := false, d := false, w := true);
    var shot1 := tank.HandleInput(fire, now, heading);
    var shot2 := tank.HandleInput(fire, later, heading);
    first, second := shot1.Some?, shot2.Some?;
  }

  /** Any tank that fires at `s` yields no shell on a later frame before
      s + ShotCooldown, whatever keys are held, and yields one from exactly
      s + ShotCooldown on while fire is held (health cannot change in
      between, since input handling never touches it). */
  method CooldownAfterShot(tank: Tank, first: Keys, s: int, next: Keys, later: int,
                           heading: real -> Vec)
    returns (fired: bool, again: bool)
    requires tank.Valid()
    requires s <= later
    modifies tank
    ensures fired <==> MayFire(first.w, s, old(tank.lastShotTime), old(tank.health))
    ensures fired ==> (again <==> next.w && s + ShotCooldown <= later)
  {
    var shot1 := tank.HandleInput(first, s, heading);
    var shot2 := tank.HandleInput(next, later, heading);
    fired, again := shot1.Some?, shot2.Some?;
  }

  /** A tank brought to 40 health takes a direct hit rolling 50 at `t0`: it
      dies and enters the death sequence. Because the next-explosion time of
      a fresh tank is 0, the first animation frame (at t0 + 50) already
      spawns an explosion; the next one is due strictly after t0 + 150. */
  method FatalHitThenExplosions(t0: int)
    returns (health: int, dying: bool, shownAt50: nat, shownAt100: nat, shownAt151: nat)
    requires 0 <= t0
    ensures health == 0 && dying
    ensures shownAt50 == 1 && shownAt100 == 1 && shownAt151 == 2
  {
    var tank := new Tank(100.0, 100.0);
    var d := tank.TakeDamage(30, t0);
    d := tank.TakeDamage(30, t0);
    assert tank.health == 40;
    d := tank.TakeDamage(50, t0);
    health, dying := tank.health, tank.isDying;
    tank.UpdateDeathAnimation(t0 + 50, 0, 0, 0, 300);
    shownAt50 := |tank.deathExplosions|;
    tank.UpdateDeathAnimation(t0 + 100, 0, 0, 0, 300);
    shownAt100 := |tank.deathExplosions|;
    tank.UpdateDeathAnimation(t0 + 151, 0, 0, 0, 300);
    shownAt151 := |tank.deathExplosions|;
  }

  /** An AI tank whose target lies straight behind it turns the hull one
      step and does not move forward. */
  method TargetBehind() returns (reached: bool, speed: real, body: real)
    ensures !reached && speed == 0.0 && body == AiTurnStep
  {
    var tank := new Tank(0.0, 0.0);
    AngleDiffInRange(180.0);
    reached := tank.MoveToTarget(180.0, 300.0);
    speed, body := tank.currentSpeed, tank.bodyAngle;
  }
}
