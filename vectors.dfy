/** Options and results, for the Java nulls and the exception the core can throw. */
module Wrappers {
  datatype Option<+T> = None | Some(value: T)

  datatype Result<+T, +E> = Success(value: T) | Failure(error: E)
}

/**
 * The arithmetic the bodies use: JOML's `Vector3f` as a value over the reals,
 * `java.lang.Math.PI`, and `Math.cos` / `Math.sin`, which are left uninterpreted.
 */
module Vectors {
  /** A `Vector3f`. No vector is ever shared between two owners, so a value models it. */
  datatype Vec3 = Vec3(x: real, y: real, z: real)

  /** `new Vector3f()` and `new Vector3f(0, 0, 0)`. */
  const Origin: Vec3 := Vec3(0.0, 0.0, 0.0)

  /** `new Vector3f(a).add(b)`: a fresh vector, neither operand is changed. */
  function Add(a: Vec3, b: Vec3): Vec3
  {
    Vec3(a.x + b.x, a.y + b.y, a.z + b.z)
  }

  /** `Math.PI`. */
  const PI: real := 3.141592653589793

  /** The period of the trigonometric functions, the orbit wrap threshold. */
  const TWO_PI: real := 2.0 * PI

  /**
   * `Math.cos` and `Math.sin`. Nothing is assumed about them: every property
   * proved here holds for any pair of functions.
   */
  datatype Trig = Trig(cos: real -> real, sin: real -> real)
}
