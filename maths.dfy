/**
 * The numeric vocabulary the page's geometry is written in: JavaScript's
 * `Math.sin`, `Math.cos`, `Math.acos`, `Math.sqrt` and `Math.PI`, and the
 * three-component vectors handed to the renderer.
 *
 * The transcendental functions are not computable here, so they are kept
 * uninterpreted: every operation of the model takes a `MathLib` value and is
 * proved for ALL choices of its functions. Facts about them that a proof needs
 * are stated as predicates on a `MathLib` and required explicitly.
 */
module Maths {

  /** The part of JavaScript's `Math` object the page uses, over reals. */
  datatype MathLib = MathLib(
    sin: real -> real,
    cos: real -> real,
    acos: real -> real,
    sqrt: real -> real,
    pi: real)

  /** sin²θ + cos²θ = 1 for every angle θ. */
  ghost predicate Pythagorean(m: MathLib)
  {
    forall theta :: m.sin(theta) * m.sin(theta) + m.cos(theta) * m.cos(theta) == 1.0
  }

  /** sin and cos repeat after a full turn of 2π. */
  ghost predicate Periodic(m: MathLib)
  {
    forall a, b :: b == a + 2.0 * m.pi ==> m.sin(b) == m.sin(a) && m.cos(b) == m.cos(a)
  }

  /** A position or scale vector `[x, y, z]`. */
  datatype Vec3 = Vec3(x: real, y: real, z: real)

  function Neg(v: Vec3): Vec3
  {
    Vec3(-v.x, -v.y, -v.z)
  }

  /** Squared Euclidean length x² + y² + z². */
  function NormSq(v: Vec3): real
  {
    v.x * v.x + v.y * v.y + v.z * v.z
  }

}
