/** Small failure-carrying datatypes shared by every module. */
module Wrappers {

  /** A value that may be missing (a Go zero value or a "not found" answer). */
  datatype Option<+T> = None | Some(value: T)
}
