/** Optional values and success/failure results shared by every module. */
module Wrappers {

  /** A value that may be missing: JavaScript's `NaN`, `null` or `undefined`. */
  datatype Option<+T> = None | Some(value: T) {
    function GetOr(default: T): T {
      match this
      case Some(v) => v
      case None => default
    }
  }

  /** The outcome of an operation that can be rejected with an error value. */
  datatype Result<+R, +E> = Success(value: R) | Failure(error: E)
}
