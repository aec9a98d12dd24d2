/** Failure-carrying values shared by every module of the model. */
module Wrappers {

  /** A value that may be absent: Python's `None` or a conversion that failed. */
  datatype Option<+T> = None | Some(value: T)

  /** The outcome of an operation that may raise an exception nobody catches. */
  datatype Result<+T, +E> = Success(value: T) | Failure(error: E)
}
