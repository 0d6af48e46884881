/** Optional values and results with an error, as used across the model. */
module Wrappers {

  /** A value that may be absent (the source's `Optional`). */
  datatype Option<+T> = None | Some(value: T)

  /** The outcome of an operation that either succeeds or raises an error. */
  datatype Result<+T, +E> = Success(value: T) | Failure(error: E)
}
