/** Optional values and error results shared by the other modules. */
module Wrappers {

  /** A value that may be absent (JavaScript's `null`/`undefined`). */
  datatype Option<+T> = None | Some(value: T)

  /** The outcome of an operation that may be refused with an error. */
  datatype Result<+R, +E> = Success(value: R) | Failure(error: E)
}
