/** The usual optional value, used wherever the source returns a null pointer or fails. */
module Wrappers {
  datatype Option<+T> = None | Some(value: T)
}
