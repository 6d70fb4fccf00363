/** Points of the world, over exact reals, and the names of the things in it. */
module Geometry {
  datatype Vec3 = Vec3(x: real, y: real, z: real) {
    function Plus(other: Vec3): Vec3 {
      Vec3(x + other.x, y + other.y, z + other.z)
    }

    function Minus(other: Vec3): Vec3 {
      Vec3(x - other.x, y - other.y, z - other.z)
    }

    function Times(factor: real): Vec3 {
      Vec3(x * factor, y * factor, z * factor)
    }

    /** The same vector without its height. */
    function Flat(): Vec3 {
      Vec3(x, y, 0.0)
    }
  }

  const ZERO: Vec3 := Vec3(0.0, 0.0, 0.0)

  /** An entity's handle: its slot, and which occupant of the slot it is.
      Entities that are alive at the same time have distinct slots. */
  datatype Entity = Entity(id: nat, generation: nat)
}
