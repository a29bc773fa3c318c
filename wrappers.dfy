/** A value that may be missing: the shape of Go's `(value, err)` pairs. */
module Wrappers {

  datatype Option<+T> = None | Some(value: T)
}
