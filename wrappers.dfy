/** Option and Result, for absent values and for calls that can fail. */
module Wrappers {

  datatype Option<+T> = None | Some(value: T)

  /** The outcome of a call that either succeeds with a value or fails with an error. */
  datatype Result<+R, +E> = Success(value: R) | Failure(error: E)
}
