/** The two glm vector types the engine passes around, over exact reals.
    Single-precision rounding is abstracted away throughout the model. */
module Glm {
  datatype Vec2 = Vec2(x: real, y: real)
  datatype Vec3 = Vec3(x: real, y: real, z: real)
}
