/** Optional values (`null`-or-value) and results (value-or-error). */
module Wrappers {

  /** A value that may be absent (JavaScript's `null`). */
  datatype Option<+T> = None | Some(value: T)

  /** The outcome of an operation that can fail with an error of type E. */
  datatype Result<+T, +E> = Success(value: T) | Failure(error: E)
}
