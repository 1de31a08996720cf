/**
 * Points and vectors of the gl-matrix library as the demos use them, over
 * exact real arithmetic. Only the operations that are plain arithmetic
 * (lerp, subtract, cross) are defined here; `normalize` involves a square
 * root and is always a parameter of the members that use it.
 */
module Geometry {

  /** A `vec3`: three coordinates. */
  datatype Vec3 = Vec3(x: real, y: real, z: real)

  /** A `vec4`: four coordinates; the builders store points with w = 0. */
  datatype Vec4 = Vec4(x: real, y: real, z: real, w: real)

  /** The first three components of a `vec4`, in order: what `pushVertex` appends. */
  function Coords(v: Vec4): seq<real>
  {
    [v.x, v.y, v.z]
  }

  /** The three components of a `vec3`, in order. */
  function Coords3(v: Vec3): seq<real>
  {
    [v.x, v.y, v.z]
  }

  /** `vec4.lerp(out, a, b, t)`: out[k] = a[k] + t * (b[k] - a[k]). */
  function Lerp(a: Vec4, b: Vec4, t: real): Vec4
  {
    Vec4(a.x + t * (b.x - a.x), a.y + t * (b.y - a.y), a.z + t * (b.z - a.z), a.w + t * (b.w - a.w))
  }

  /** `vec3.subtract(out, a, b)`. */
  function Sub(a: Vec3, b: Vec3): Vec3
  {
    Vec3(a.x - b.x, a.y - b.y, a.z - b.z)
  }

  /** `vec3.add(out, a, b)`. */
  function Plus(a: Vec3, b: Vec3): Vec3
  {
    Vec3(a.x + b.x, a.y + b.y, a.z + b.z)
  }

  /** Adding vectors is associative. */
  lemma PlusAssoc(a: Vec3, b: Vec3, c: Vec3)
    ensures Plus(Plus(a, b), c) == Plus(a, Plus(b, c))
  {
  }

  /** `vec3.scale(out, a, k)`. */
  function Scale(k: real, a: Vec3): Vec3
  {
    Vec3(k * a.x, k * a.y, k * a.z)
  }

  /** `vec3.cross(out, a, b)`. */
  function Cross(a: Vec3, b: Vec3): Vec3
  {
    Vec3(a.y * b.z - a.z * b.y, a.z * b.x - a.x * b.z, a.x * b.y - a.y * b.x)
  }
}
