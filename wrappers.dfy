/** Optional values and results with an error, as returned by the operations of the model. */
module Wrappers {

  /** A value that may be absent: Python's `None` or a value. */
  datatype Option<+T> = None | Some(value: T)

  /** The outcome of an operation that either returns a value or raises an exception. */
  datatype Result<+R, +E> = Success(value: R) | Failure(error: E)
}
