/** A value that may be absent: a missing map entry, a nil pointer, an unreadable payload. */
module Options {
  datatype Option<+T> = None | Some(value: T)
}
