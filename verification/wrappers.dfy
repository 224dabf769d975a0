/** Optional values and fallible results, used for the optional fields of a
    post and for the outcome of loading the post collection. */
module Wrappers {

  /** A value that may be absent (a JSON field that is missing or null). */
  datatype Option<+T> = None | Some(value: T)

  /** The outcome of a step that can fail: a value or an error. */
  datatype Result<+R, +E> = Success(value: R) | Failure(error: E)
}
