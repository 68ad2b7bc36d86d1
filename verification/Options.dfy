/** A value that may be missing: NULL pointers and absent results. */
module Options {
  datatype Option<+T> = None | Some(value: T)
}
