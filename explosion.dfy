/** The impact explosion: a value fixed at creation (position and creation
    time) whose removal test and growth animation depend only on its age. */
module ExplosionModel {
  import opened Basics

  /** Total lifetime in milliseconds. */
  const Duration: int := 300
  /** Length of the scale-up phase in milliseconds. */
  const GrowthDuration: int := 200

  datatype Explosion = Explosion(position: Vec, creationTime: int)

  /** `should_remove`: the explosion is gone once its age strictly exceeds
      Duration. It is kept for its whole lifetime, and it is never removed
      before it has grown to full size. */
  predicate ShouldRemove(e: Explosion, now: int): (gone: bool)
    ensures now <= e.creationTime + Duration ==> !gone
    ensures gone ==> GrowthScale(now - e.creationTime) == 1.0
  {
    now - e.creationTime > Duration
  }

  /** The scale factor `draw` applies to the explosion image at a given age. */
  function GrowthScale(age: int): (s: real)
    ensures 0 <= age ==> 0.0 <= s <= 1.0
    ensures age >= GrowthDuration ==> s == 1.0
    ensures 0 <= age < GrowthDuration ==> s < 1.0
  {
    if age < GrowthDuration then age as real / GrowthDuration as real else 1.0
  }

  function ScaleAt(e: Explosion, now: int): real {
    GrowthScale(now - e.creationTime)
  }

  /** An older explosion is never drawn smaller than a younger one. */
  lemma GrowthScaleMonotone(age1: int, age2: int)
    requires age1 <= age2
    ensures GrowthScale(age1) <= GrowthScale(age2)
  {
  }

  /** The two branches of the scale agree at the switch point: the scale is
      the ratio age / GrowthDuration clamped at 1, a continuous function. */
  lemma GrowthScaleIsClampedRatio(age: int)
    ensures GrowthScale(age) == Min(age as real / GrowthDuration as real, 1.0)
  {
  }

  /** Since GrowthDuration < Duration, an explosion that may be removed is
      at full size, and full size is reached while it is still shown. */
  lemma FullSizeBeforeRemoval(e: Explosion, now: int)
    requires ShouldRemove(e, now)
    ensures ScaleAt(e, now) == 1.0
    ensures var grown := e.creationTime + GrowthDuration;
      !ShouldRemove(e, grown) && ScaleAt(e, grown) == 1.0
  {
  }
}
