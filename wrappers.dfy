/** The optional value used where the Go code has a nil pointer, a nil channel or a nil error. */
module Wrappers {
  datatype Option<+T> = None | Some(value: T)
}
