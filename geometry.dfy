/** Shared value types: an Option wrapper, fixed-width integers, three-component vectors over the
    reals, and transforms and quaternions as symbolic terms.

    Transforms and quaternions are a free term algebra: composing, inverting
    or interpolating builds a new term and no equation between terms is
    assumed. A contract about a transform therefore states which product the
    code forms and in which order, never a numeric result. */
module Geometry {

  datatype Option<+T> = None | Some(value: T)

  /** Fixed-width integers of the C++ source. */
  newtype uint8 = x: int | 0 <= x < 0x100
  newtype uint16 = x: int | 0 <= x < 0x1_0000
  newtype int16 = x: int | -0x8000 <= x < 0x8000

  /** The implicit conversion of an `int` to `int16_t`: two's-complement wrap. */
  function ToInt16(x: int): (r: int16)
    ensures -0x8000 <= x < 0x8000 ==> r as int == x
    ensures (r as int - x) % 0x1_0000 == 0
  {
    (((x + 0x8000) % 0x1_0000) - 0x8000) as int16
  }

  /** The C++ conversion of a float to `int`: truncation toward zero. */
  function TruncToInt(x: real): (r: int)
    ensures 0.0 <= x ==> 0 <= r && r as real <= x < r as real + 1.0
    ensures x < 0.0 ==> r <= 0 && r as real - 1.0 < x <= r as real
  {
    if x >= 0.0 then x.Floor else -((-x).Floor)
  }

  /** A 3-vector (Bullet's btVector3 restricted to x, y, z), floats read as reals. */
  datatype Vec3 = Vec3(x: real, y: real, z: real) {
    function Add(o: Vec3): Vec3 { Vec3(x + o.x, y + o.y, z + o.z) }
    function Sub(o: Vec3): Vec3 { Vec3(x - o.x, y - o.y, z - o.z) }
    function Neg(): Vec3 { Vec3(-x, -y, -z) }
  }

  const Zero: Vec3 := Vec3(0.0, 0.0, 0.0)

  /** Quaternions: the identity, a value supplied from outside (animation,
      the editor), a product, or a spherical interpolation. */
  datatype Quat =
    | QIdentity
    | QNamed(name: string)
    | QMul(left: Quat, right: Quat)
    | QSlerp(from: Quat, to: Quat, t: real)

  /** Rigid transforms. `TRotTrans(q, v)` is a basis from `q` with origin `v`;
      `TEuler(angles, v)` the basis built from Euler angles; `TWithOriginOf(t, s)`
      is `t` whose origin was replaced by the origin of `s`. */
  datatype Transform =
    | TIdentity
    | TNamed(name: string)
    | TRotTrans(rotation: Quat, origin: Vec3)
    | TEuler(angles: Vec3, position: Vec3)
    | TMul(left: Transform, right: Transform)
    | TInverse(of: Transform)
    | TWithOriginOf(base: Transform, source: Transform)

  /** The translation-only transform `Transform(Matrix3x3::getIdentity(), v)`. */
  function Translation(v: Vec3): Transform
  {
    TRotTrans(QIdentity, v)
  }
}
