/** The one wrapper type the other modules share. */
module Wrappers {
  /** A value that may be missing: Go's `nil`, a zero value, or an early return. */
  datatype Option<+T> = None | Some(value: T)
}
