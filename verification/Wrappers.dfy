/** A value that may be absent: C's null pointers and unset out-parameters. */
module Wrappers {
  datatype Option<+T> = None | Some(value: T)
}
