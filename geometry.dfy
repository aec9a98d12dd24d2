/** Points in space, as the scripts keep them: three coordinates per atom. */
module Geometry {
  datatype Vec3 = Vec3(x: real, y: real, z: real)
}
