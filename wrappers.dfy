/** Optional values and success-or-error results. */
module Wrappers {

  /** A value that may be absent (a null asset pointer, say). */
  datatype Option<+T> = None | Some(value: T)

  /** The outcome of processing one level: a value, or the reason it was abandoned. */
  datatype Result<+R, +E> = Success(value: R) | Failure(error: E)
}
