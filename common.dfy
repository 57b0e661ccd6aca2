/** Small value types shared by the game's components. */
module Common {

  /** An optional value: a raycast that may miss, a destination that may be unset. */
  datatype Option<T> = None | Some(value: T)

  /** A Unity colour (red, green, blue, alpha). The model only stores and compares colours. */
  datatype Color = Color(r: real, g: real, b: real, a: real)
}
