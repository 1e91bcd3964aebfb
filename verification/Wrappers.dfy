/** A value that may be absent: the zero time, a missing map entry, a nil pointer. */
module Wrappers {
  datatype Option<+T> = None | Some(value: T)
}
