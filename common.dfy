/** Values shared by the player controller and the pet: optional results,
    world-space vectors and rotations, and the engine's scalar clamp. */
module Common {

  /** The result of an engine query that may find nothing (a raycast). */
  datatype Option<T> = None | Some(value: T)

  /** A point or direction in world space, over the reals. */
  datatype Vec3 = Vec3(x: real, y: real, z: real)

  /** An orientation as a quaternion; only ever copied, never computed, here. */
  datatype Rotation = Rotation(x: real, y: real, z: real, w: real)

  const Zero := Vec3(0.0, 0.0, 0.0)

  function Sub(a: Vec3, b: Vec3): Vec3 {
    Vec3(a.x - b.x, a.y - b.y, a.z - b.z)
  }

  function Scale(v: Vec3, k: real): Vec3 {
    Vec3(k * v.x, k * v.y, k * v.z)
  }

  function SqrMagnitude(v: Vec3): real {
    v.x * v.x + v.y * v.y + v.z * v.z
  }

  /** The engine's vector equality with the zero vector: a squared length
      below 1e-10 (in single precision) counts as zero. */
  predicate ApproxZero(v: Vec3) {
    SqrMagnitude(v) < 0.0000000000999999944
  }

  /** The engine's unit-length copy of `v`, given its length: vectors shorter
      than 1e-5 normalise to the zero vector. */
  function Normalized(v: Vec3, magnitude: real): Vec3 {
    if magnitude > 0.00001 then Scale(v, 1.0 / magnitude) else Zero
  }

  /** The engine's scalar clamp: a value below `lo` gives `lo`, otherwise a
      value above `hi` gives `hi`, otherwise the value itself. The lower bound
      is tested first, so with `lo > hi` every value at or above `lo` gives `hi`. */
  function Clamp(v: real, lo: real, hi: real): (r: real)
    ensures lo <= hi ==> lo <= r <= hi
    ensures lo <= v <= hi ==> r == v
    ensures v < lo ==> r == lo
    ensures lo <= hi < v ==> r == hi
  {
    if v < lo then lo else if v > hi then hi else v
  }
}
