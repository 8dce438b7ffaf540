/** Small value types shared by the tank, projectile and explosion models:
    a 2-D vector of exact reals (standing for pygame's Vector2), an optional
    value (standing for Python's `None`), and scalar clamps. */
module Basics {

  datatype Option<T> = None | Some(value: T)

  /** A 2-D position, velocity or direction. */
  datatype Vec = Vec(x: real, y: real)

  const Zero: Vec := Vec(0.0, 0.0)

  function Add(u: Vec, v: Vec): Vec {
    Vec(u.x + v.x, u.y + v.y)
  }

  function Scale(k: real, v: Vec): Vec {
    Vec(k * v.x, k * v.y)
  }

  /** Squared Euclidean length, so that `velocity.length()` can be pinned
      down without a square root. */
  function SquaredLength(v: Vec): real {
    v.x * v.x + v.y * v.y
  }

  function Abs(r: real): real {
    if r < 0.0 then -r else r
  }

  function Min(a: real, b: real): real {
    if a <= b then a else b
  }

  function Max(a: real, b: real): real {
    if a >= b then a else b
  }

  function MaxInt(a: int, b: int): int {
    if a >= b then a else b
  }
}
