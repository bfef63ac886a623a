/** Optional values and success/failure results, used wherever the library
    either produces a value or reports why it could not. */
module Wrappers {

  /** A value that may be absent: JavaScript's `undefined`/`null`. */
  datatype Option<+T> = None | Some(value: T)

  /** The settled value of an asynchronous step: resolved or rejected. */
  datatype Result<+R, +E> = Success(value: R) | Failure(error: E)
}
