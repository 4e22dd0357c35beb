/** Small value types shared by every part of the extension builder model. */
module Base {

  datatype Option<+T> = None | Some(value: T)

  /** An uninterpreted byte, as read from or written to a file. */
  type Byte = bv8
}
