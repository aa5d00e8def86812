/** Optional values and results with an error, shared by the whole model. */
module Wrappers {

  /** A value that may be absent (Python's `None`). */
  datatype Option<+T> = None | Some(value: T)

  /** The outcome of an operation that raises on failure in the source. */
  datatype Result<+T, +E> = Success(value: T) | Failure(error: E)
}
