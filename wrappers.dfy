/** Option and Result: absent values and early-return failures. */
module Wrappers {

  datatype Option<+T> = None | Some(value: T)

  /** A computation that either succeeds with a value or fails with an error value. */
  datatype Result<+R, +E> = Success(value: R) | Failure(error: E)
}
