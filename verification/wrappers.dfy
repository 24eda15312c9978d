/** Failure-carrying values used in place of Python's None and raised exceptions. */
module Wrappers {

  /** A value that may be absent (Python's `None`). */
  datatype Option<+T> = None | Some(value: T)

  /** A computation that either yields a value or fails with an error value (a caught exception). */
  datatype Result<+R, +E> = Success(value: R) | Failure(error: E)
}
