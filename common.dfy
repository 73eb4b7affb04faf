/** Small value types shared by every component: optional values (the source's
    null smart pointers) and the transform placeholder. */
module Common {

  /** A pointer that may be null. */
  datatype Option<+T> = None | Some(value: T)

  /** A rigid transform (`Transform3D`). Its matrix is not modelled: two transforms
      are told apart only by a tag, and `Identity` is the identity matrix. */
  datatype Transform = Identity | Pose(tag: nat)
}
