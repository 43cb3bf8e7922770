/** Optional values and success/failure results shared by the other modules. */
module Wrappers {

  /** A value that may be absent (Python `None`, JavaScript `undefined`). */
  datatype Option<+T> = None | Some(value: T)

  /** The outcome of an operation that either returns a value or raises an error. */
  datatype Result<+R, +E> = Success(value: R) | Failure(error: E)
}
