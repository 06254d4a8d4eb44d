/** Optional values and fallible results, used for the optional (`?`) fields
    of the workflow records and for the one operation that throws. */
module Wrappers {

  /** A value that may be absent (`undefined` or `null` in the application). */
  datatype Option<+T> = None | Some(value: T) {

    /** The value when present, otherwise `default` (the `x || default` idiom on objects). */
    function GetOr(default: T): T {
      match this
      case Some(v) => v
      case None => default
    }
  }

  /** The outcome of an operation that may throw: a value or the thrown error. */
  datatype Result<+R, +E> = Success(value: R) | Failure(error: E)
}
