/** A value that may be absent: what a NULL token pointer is in the C code. */
module Optional {
  datatype Option<T> = None | Some(value: T)
}
