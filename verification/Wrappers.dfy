/** A value that may be absent: a SQL NULL, a nil pointer, a missing map entry. */
module Wrappers {
  datatype Option<+T> = None | Some(value: T)
}
