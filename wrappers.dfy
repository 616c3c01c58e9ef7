/** Optional values and results with an error, as used throughout the model. */
module Wrappers {

  /** A value that may be absent, such as a key missing from a JSON object. */
  datatype Option<+T> = None | Some(value: T) {

    /** The value, or `default` when absent (Python's `dict.get(key, default)`). */
    function GetOr(default: T): (r: T)
      ensures Some? ==> r == value
      ensures None? ==> r == default
    {
      match this
      case Some(v) => v
      case None => default
    }
  }

  /** The outcome of a step that can fail with an error value. */
  datatype Result<+R, +E> = Success(value: R) | Failure(error: E)
}
