/** Optional values and success/failure results shared by every module. */
module Wrappers {

  /** A value that may be missing: JavaScript's `null`/`undefined` on the one hand, a value on the other. */
  datatype Option<+T> = None | Some(value: T)

  /** The outcome of an operation that either yields a value or fails with an error. */
  datatype Result<+R, +E> = Success(value: R) | Failure(error: E)
}
