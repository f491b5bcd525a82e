/** Small helper datatypes shared by the other modules. */
module Wrappers {

  /** A value that may be absent: Go's nil pointer, a panicking helper, a failed parse. */
  datatype Option<+T> = None | Some(value: T)
}
