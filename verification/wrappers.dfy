/** Failure-carrying result types used across the model. */
module Wrappers {

  /** A value that may be absent (pandas' NaN result, a key not found). */
  datatype Option<+T> = None | Some(value: T)

  /** The outcome of an operation that can stop with an error. */
  datatype Result<+T, +E> = Success(value: T) | Failure(error: E)
}
