/** The optional value used for results that may be absent, and for Go's nil error. */
module Wrappers {
  datatype Option<+T> = None | Some(value: T)
}
