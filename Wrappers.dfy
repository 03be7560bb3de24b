/** Optional values and success/failure results shared by every module. */
module Wrappers {

  /** A value that may be absent: an optional property, or `null`/`undefined`. */
  datatype Option<+T> = None | Some(value: T)

  /** The outcome of a check that either accepts its input or reports why not. */
  datatype Result<+R, +E> = Success(value: R) | Failure(error: E)
}
