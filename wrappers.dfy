/** Failure-compatible result types shared by the services. */
module Wrappers {

  /** A value that may be absent, as a missing dictionary key or reply field. */
  datatype Option<+T> = None | Some(value: T) {
    /** The value, or `default` when absent (Python's `dict.get(key, default)`). */
    function GetOr(default: T): T
    {
      match this
      case Some(v) => v
      case None => default
    }
  }

  /** The reply of a handler that either succeeds with a value or raises an HTTP error. */
  datatype Result<+R, +E> = Success(value: R) | Failure(error: E)
}
