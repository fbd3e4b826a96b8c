/** The optional value used for a sphere's parent (the seed has none). */
module Options {
  datatype Option<+T> = None | Some(value: T)
}

/**
 * Points and directions in three dimensions, and the part of the scene
 * graph that the plant's bookkeeping consults but does not own.
 */
module Vectors {
  datatype Vec3 = Vec3(x: real, y: real, z: real)
  {
    /** Componentwise sum, as `Vector3.add`. */
    function Add(v: Vec3): Vec3 {
      Vec3(x + v.x, y + v.y, z + v.z)
    }

    /** Every component multiplied by `k`, as `Vector3.multiplyScalar`. */
    function Scaled(k: real): Vec3 {
      Vec3(k * x, k * y, k * z)
    }
  }

  const ORIGIN: Vec3 := Vec3(0.0, 0.0, 0.0)

  /**
   * The world transforms of the plant's meshes during one frame, taken as
   * given. `distance(p, i)` is the Euclidean distance from the world point
   * `p` to the world position of sphere `i` (the plant's list index), and
   * `toLocal(p, i)` is `p` expressed in sphere `i`'s local frame.
   */
  datatype Scene = Scene(distance: (Vec3, nat) -> real, toLocal: (Vec3, nat) -> Vec3)
}
