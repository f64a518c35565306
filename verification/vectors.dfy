/** Three-component vectors over the reals, standing in for the single-precision
    vectors of the viewer, together with the two pieces of geometry the model
    does not interpret: rotation about an axis and normalisation. */
module Vectors {

  datatype Vec3 = Vec3(x: real, y: real, z: real)

  /** The world's vertical axis, used by the scripted fly-through. */
  const WorldUp: Vec3 := Vec3(0.0, 1.0, 0.0)

  const Zero: Vec3 := Vec3(0.0, 0.0, 0.0)

  function Add(a: Vec3, b: Vec3): Vec3 {
    Vec3(a.x + b.x, a.y + b.y, a.z + b.z)
  }

  function Sub(a: Vec3, b: Vec3): Vec3 {
    Vec3(a.x - b.x, a.y - b.y, a.z - b.z)
  }

  function Neg(a: Vec3): Vec3 {
    Vec3(-a.x, -a.y, -a.z)
  }

  function Scale(k: real, a: Vec3): Vec3 {
    Vec3(k * a.x, k * a.y, k * a.z)
  }

  function Cross(a: Vec3, b: Vec3): Vec3 {
    Vec3(a.y * b.z - a.z * b.y, a.z * b.x - a.x * b.z, a.x * b.y - a.y * b.x)
  }

  datatype Axis = X | Y | Z

  /** The coordinate of `v` along axis `i`. */
  function Coord(v: Vec3, i: Axis): real {
    match i
    case X => v.x
    case Y => v.y
    case Z => v.z
  }

  /** Rotation and normalisation are trigonometric and square-root based; the
      model treats them as arbitrary functions supplied by the caller.
      `rotate(degrees, axis, v)` turns the vector `v` about `axis` through the
      origin. */
  datatype Geometry = Geometry(rotate: (real, Vec3, Vec3) -> Vec3, normalize: Vec3 -> Vec3)

  /** A rotation by zero degrees moves nothing. */
  ghost predicate ZeroIsIdentity(g: Geometry) {
    forall axis, v :: g.rotate(0.0, axis, v) == v
  }

  /** Rotating a vector and then normalising it is the same as normalising it
      first: rotations preserve length. */
  ghost predicate RotationKeepsDirection(g: Geometry) {
    forall angle, axis, v :: g.normalize(g.rotate(angle, axis, v)) == g.rotate(angle, axis, g.normalize(v))
  }
}
