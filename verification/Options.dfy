/** A value that may be absent: `T | undefined`. */
module Options {
  datatype Option<+T> = None | Some(value: T)
}
