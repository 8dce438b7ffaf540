# Tank battle: per-frame vehicle, shell and explosion model

This project models the simulation core of a two-tank arena game. It covers
one combat vehicle (`Tank`), the shells it fires (`Projectile`) and the impact
explosions (`Explosion`). Each frame, a tank:

- turns player keys into a speed inside a fixed envelope;
- rotates its hull and its turret independently;
- fires a shell when the two-second cooldown has run out;
- drifts under decaying recoil and push impulses;
- wraps around the screen edges;
- takes random damage;
- when destroyed, runs a timed death sequence that spawns and prunes
  sub-explosions.

An AI controller turns the hull a fixed step toward a target bearing and
tracks the turret proportionally. A shell flies in a straight line at
constant velocity and expires once its accumulated distance exceeds 500.
An explosion grows to full size in 200 ms and is removed after 300 ms.

Modules:

- `Basics`: vectors, `Option` and clamps.
- `Angles`: Python's float `% 360` and the normalisation of a heading
  difference into (-180, 180].
- `ExplosionModel`: pure functions of an explosion's age.
- `ProjectileModel`: the `Projectile` class and the distance law over many
  updates.
- `TankRules`: the per-field update rules of the tank, as pure functions,
  and the lemmas about them.
- `TankModel`: the `Tank` class. Each method's `ensures` ties the new state
  to the `TankRules` functions of the old state. The class invariant
  `Valid()` says:
  - 0 ≤ health ≤ 100;
  - |speed| ≤ 0.5;
  - recoil ≤ 0;
  - only a tank with 0 health is dying.
- `Scenarios`: clients that replay match situations using only the
  contracts.

Outside inputs are parameters:

- The millisecond clock `pygame.time.get_ticks()` is a `now: int` argument.
- Each `random.randint` roll is an argument whose `requires` gives the range
  it is drawn from.
- The trigonometry is given, not computed:
  - `heading(t)` is the unit vector (cos(−t°), sin(−t°)) that the source
    builds with `math.cos`/`math.sin`;
  - `unit(v)` is the direction of `v` that the source obtains through
    `math.atan2`;
  - the AI's target bearing and target distance are arguments;
  - `velocity.length()` is an argument `len`. The requires pins `len` to
    the non-negative root of the squared length.
- Floats are exact `real`s.

A pygame vector is false when it is the zero vector. So `if
self.push_direction:` skips the push both for `None` and for a zero
direction, and the model does the same.

Four behaviours of the code are easy to misread, and the model follows the
code in each:

- A fresh tank's next-explosion time is 0. So the first death-animation
  frame after death spawns an explosion at once, not one interval later
  (`Scenarios.FatalHitThenExplosions`).
- The heading difference is normalised into the half-open interval
  (−180, 180], not the closed one.
- A push speed may be negative, because `apply_push` stores any strength
  and the decay handles both signs.
- Once the death sequence has ended, the tank stays at 0 health and is no
  longer dying. A later hit then starts a new death sequence, with a new
  start time and a second destruction event (`Tank.ApplyDamage`).

## Model

| member | source | states |
|---|---|---|
| `Angles.Mod360` | tank.py:318 | Python's float `a % 360` lies in [0, 360) and differs from `a` by whole turns |
| `Angles.AngleDiff` | tank.py:317-320 | the normalised heading difference lies in (−180, 180] and differs from the raw difference by whole turns |
| `Angles.AngleDiffUnique` | tank.py:339-342 | the normalised difference is the only angle in (−180, 180] that differs from the raw one by whole turns |
| `Angles.AngleDiffInRange` | tank.py:318-320 | a difference already in (−180, 180] is left unchanged |
| `Angles.AngleDiffPeriodic` | tank.py:315-320 | adding whole turns to a bearing does not change the rotation chosen |
| `ExplosionModel.ShouldRemove` | explosion.py:18-19 | an explosion is kept up to and including 300 ms after its creation, and is never removed before it has grown to full size |
| `ExplosionModel.GrowthScale` | explosion.py:26-29 | for age ≥ 0 the scale lies in [0, 1]; it is below 1 during growth and exactly 1 from GrowthDuration on |
| `ExplosionModel.GrowthScaleMonotone` | explosion.py:26-29 | the scale never decreases with age |
| `ExplosionModel.GrowthScaleIsClampedRatio` | explosion.py:26-29 | the scale equals min(age/200, 1): the two branches meet at age 200 and the scale is continuous |
| `ExplosionModel.FullSizeBeforeRemoval` | explosion.py:8-29 | a removable explosion (age > 300, strictly) is at full size, and full size is reached at age 200 while it is still shown |
| `ProjectileModel.LaunchVelocity` | projectile.py:13-21 | the launch velocity adds nothing for a tank at rest, and a shell fired along the hull moves at the shell speed plus the tank speed |
| `ProjectileModel.Projectile.constructor` | projectile.py:7-24 | velocity is the shell speed along the launch heading plus the tank speed along the hull heading; distance starts at 0 and the range is 500 |
| `ProjectileModel.Projectile.Update` | projectile.py:31-34 | the position moves by exactly the velocity, the velocity is a constant, the distance grows by the velocity's length, and the result is true iff distance ≤ max distance, boundary included |
| `ProjectileModel.Traveled` | projectile.py:33 | with a non-negative length, the distance after any number of updates is at least the starting distance |
| `ProjectileModel.TraveledClosedForm` | projectile.py:23-33 | after n updates the distance is the start plus n times the velocity's length |
| `ProjectileModel.TraveledMonotone` | projectile.py:33 | the distance after a later update is never smaller than after an earlier one |
| `ProjectileModel.ExpiryIsFinal` | projectile.py:23-34 | once an update reports the shell out of range, every later update does too |
| `ProjectileModel.ActiveUpdatesFormPrefix` | projectile.py:23-34 | if update n is the last one in range, the active updates are exactly those up to n |
| `TankRules.TowardZero` | tank.py:120-124 | the decay keeps the sign, never crosses 0, and reduces the magnitude by the step or to 0 |
| `TankRules.SpeedAfterInput` | tank.py:142-150 | a speed within ±0.5 stays within ±0.5. While alive, up adds 0.1 and is clamped to exactly 0.5 at the limit, never lowering a speed within the envelope; down (with up released) mirrors this toward −0.5. Coasting or a dead tank keeps its sign and loses exactly 0.005 of magnitude, or stops at 0 when less remains |
| `TankRules.RecoilDecay` | tank.py:126-127 | a non-positive recoil stays ≤ 0 and rises by at most 0.005, by exactly 0.005 while far from 0; a positive one is untouched |
| `TankRules.KeyTurn` | tank.py:152-164 | a heading turns by ±rate for one key only while health > 0; both keys or no key leave it unchanged, and a dead tank does not turn |
| `TankRules.HullStep` | tank.py:323-325 | the AI hull step has magnitude exactly 0.3 and the sign of the heading error |
| `TankRules.TurretStep` | tank.py:344-345 | the turret step has the sign of the error, never exceeds it, and has magnitude at most 0.9 for a normalised error |
| `TankRules.TurretStepApproaches` | tank.py:336-345 | after one AI aiming step the normalised error is exactly (1 − 0.005) times the old one: no overshoot, no sign change |
| `TankRules.Wrap` | tank.py:188-196 | a wrapped coordinate lies in [0, bound]; one already in range is unchanged; past the far edge it becomes 0, below 0 it becomes the bound |
| `TankRules.WrapIdempotent` | tank.py:188-196 | wrapping twice is the same as wrapping once |
| `TankRules.DamagedHealth` | tank.py:236 | health after damage is never negative, is reduced by exactly the damage when that stays ≥ 0, and is 0 iff the damage reaches the old health |
| `TankRules.Shown` | tank.py:287 | an explosion spawned now with a positive duration is shown, and none is shown once its start time plus its duration is reached |
| `TankRules.Live` | tank.py:285-287 | the pruned list holds exactly the explosions of the input whose age is below their duration, and is no longer than the input |
| `TankRules.LiveAppend` | tank.py:278-287 | pruning after an append prunes the old list and keeps the new explosion last if it is still shown |
| `TankRules.LiveLater` | tank.py:285-287 | pruning at a later time subsumes an earlier pruning; pruning twice at once changes nothing |
| `TankModel.Tank.constructor` | tank.py:9-49 | initial state: speed 0, hull 0, turret −90, health 100, not dying, no shot yet, no push, no explosions |
| `TankModel.Tank.UpdatePosition` | tank.py:93-133 | the position moves by drive + recoil + push (push only for a present, non-zero direction) and then wraps; push and recoil decay one step; the flash goes out once older than 50 ms |
| `TankModel.Tank.ApplyPush` | tank.py:135-137 | push speed and direction are overwritten, not accumulated |
| `TankModel.Tank.HandleInput` | tank.py:139-186 | speed, hull and turret follow the rules above. A shell is returned iff the firing gate `TankRules.MayFire` is open: fire is pressed, now − last shot ≥ 2000 (boundary included) and health > 0. On a shot: shot time = flash time = now, flash on, recoil = −0.1, and a fresh shell 60 ahead on the gun axis carries the tank's velocity. Otherwise those fields are unchanged |
| `TankModel.Tank.Drive` | tank.py:142-164 | the throttle and steering part of input handling follows SpeedAfterInput and KeyTurn and keeps the speed envelope |
| `TankModel.Tank.Fire` | tank.py:169-184 | the firing branch sets flash, shot time and recoil, and creates the shell at the muzzle with the inherited velocity |
| `TankModel.Tank.HandleScreenWrap` | tank.py:188-197 | each coordinate is wrapped independently |
| `TankModel.Tank.TakeDamage` | tank.py:234-239 | a roll in [30, 50] is returned and health becomes max(0, health − roll); the death sequence starts only when health reaches 0 and the tank is not already dying, so an ongoing sequence keeps its start time |
| `TankModel.Tank.TakeCollisionDamage` | tank.py:241-246 | the same as TakeDamage, for a roll in [5, 10] |
| `TankModel.Tank.ApplyDamage` | tank.py:236-238 | the damage step shared by both kinds of damage: health is floored at 0, and the death sequence starts whenever health is 0 and the tank is not dying, including a tank whose earlier sequence has ended |
| `TankModel.Tank.StartDeathSequence` | tank.py:248-251 | it sets the dying flag and the start time to now, and emits one destruction event |
| `TankModel.Tank.UpdateDeathAnimation` | tank.py:253-287 | no effect when not dying. Past 5000 ms the sequence ends and the list is untouched. Otherwise at most one explosion is spawned, only when now > the next-spawn time, which becomes now + 100. The list is the old one pruned plus the new explosion, and every kept explosion is still shown |
| `TankModel.Tank.MoveToTarget` | tank.py:308-329 | a dead tank slows to max(speed − 0.005, 0) and reports false. If the normalised error exceeds 0.5, the hull turns exactly ±0.3 toward the target, the speed is unchanged and the result is false. Otherwise the tank accelerates and reports distance < 50 |
| `TankModel.Tank.AimTurretAt` | tank.py:331-345 | a dead tank does not aim; otherwise the turret moves by 0.005 times the normalised error, at most 0.9 |
| `Scenarios.FireTwiceWithinCooldown` | tank.py:166-173 | fire held on two frames less than 2000 ms apart: the first fires, the second yields nothing |
| `Scenarios.CooldownAfterShot` | tank.py:166-173 | for any tank that fires at s, a later frame yields a shell iff fire is held and at least 2000 ms have passed since s |
| `Scenarios.FatalHitThenExplosions` | tank.py:234-287 | a tank at 40 health hit for 50 dies; its death animation has 1 explosion at +50 ms, still 1 at +100 ms and 2 at +151 ms |
| `Scenarios.TargetBehind` | tank.py:308-325 | an AI tank with its target straight behind turns the hull one step and does not accelerate |

## Left out

- Image loading, scaling, rotation and blitting are rendering through pygame, so they are not modelled. This covers `load_images`, `draw_body`, `draw_turret`, `draw_health_bar`, `Projectile.draw` and the blit in `Explosion.draw`. A death explosion keeps its rotation roll in place of its rotated image.
- The rendering rectangle `rect` is not modelled. It is only a rounded copy of the position.
- Sound is not modelled: the `_update_sounds` volume fades, `__del__`, and every `Sound.play`/`stop` call. These are audio side effects. The one exception is the destruction sound, which is recorded as the ghost counter `destructionEvents`.
- `last_body_angle` is not modelled. Only the track-sound logic reads it.
- Trigonometry is given as the `heading`/`unit` parameters, the target bearing, the target distance and `len`, because Dafny has no transcendental functions. This covers the cos/sin displacement vectors, the shell offset and velocity, the atan2/degrees bearings and the square root in `length()`.
- Float rounding is not modelled: the model uses exact reals.
- main.py is not modelled. It is a stale top-level loop, and it calls a `Tank.update` that does not exist.
- The match orchestrator, the tank-vs-tank collision resolution, projectile hit detection, AI target selection and the victory/defeat lifecycle are not part of this model. None of them is in the modelled files.
- The throttle/steering part and the firing part of `handle_input` are the helper methods `Drive` and `Fire`. The source runs both inline, in the same order.
