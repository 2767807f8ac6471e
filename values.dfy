/** Engine value types that the renderer copies without interpreting them.
    Floating-point numbers are kept as their IEEE-754 single-precision bit
    patterns: the core never does arithmetic on them, it only passes them on. */
module Values {

  datatype Option<+T> = None | Some(value: T)

  /** A 32-bit float, as its bit pattern. */
  type Float32 = bv32

  datatype Vector3 = Vector3(x: Float32, y: Float32, z: Float32)

  datatype Quaternion = Quaternion(x: Float32, y: Float32, z: Float32, w: Float32)

  /** A 4x4 matrix, its sixteen entries in the engine's order. */
  datatype Matrix4x4 = Matrix4x4(entries: seq<Float32>)

  datatype Color = Color(r: Float32, g: Float32, b: Float32, a: Float32)

  /** The shape-kind and alteration-kind enumerations are integers underneath;
      their members are declared outside the renderer and only passed through. */
  newtype ShapeType = int

  newtype AlterationType = int
}
