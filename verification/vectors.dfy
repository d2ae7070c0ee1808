/** Small value types shared by the whole model: glm vectors with their
    float components read as mathematical reals, and an optional value. */
module Vectors {

  /** A `glm::vec3`. */
  datatype Vec3 = Vec3(x: real, y: real, z: real)

  /** A `glm::vec2`. */
  datatype Vec2 = Vec2(x: real, y: real)

  /** `glm::vec2(0)`. */
  const Zero2: Vec2 := Vec2(0.0, 0.0)

  /** `glm::vec3(1)`. */
  const One3: Vec3 := Vec3(1.0, 1.0, 1.0)
}

module Optional {

  /** A value that may be absent: a null reference, or a member a constructor leaves unassigned. */
  datatype Option<+T> = None | Some(value: T)
}
