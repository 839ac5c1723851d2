/** A value that may be absent: a missing row, or a call that failed. */
module Options {
  datatype Option<+T> = None | Some(value: T)
}
