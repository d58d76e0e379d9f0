/** Failure-compatible wrappers shared by the other modules. */
module Wrappers {

  /** A value that may be absent: Python's `None` for an unset profile field, or a failed call. */
  datatype Option<+T> = None | Some(value: T)

  /** The outcome of a call that either produces a value or fails with an error text. */
  datatype Result<+T, +E> = Success(value: T) | Failure(error: E)
}
