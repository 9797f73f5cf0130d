/** Optional values and results with an error, as used by every other module. */
module Wrappers {

  /** A value that may be missing: Python's `None` or a dict key that is absent. */
  datatype Option<+T> = None | Some(value: T)

  /** The outcome of an operation that may raise instead of returning. */
  datatype Result<+T, +E> = Success(value: T) | Failure(error: E)
}
