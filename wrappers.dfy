/** Small failure-compatible datatypes shared by the other modules. */
module Wrappers {

  /** A value that may be absent: PHP's `null` (or `false` for "no record"). */
  datatype Option<+T> = None | Some(value: T) {
    function GetOr(default: T): T {
      match this
      case Some(v) => v
      case None => default
    }
  }

  /** The outcome of an operation that either returns a value or raises an exception. */
  datatype Result<+R, +E> = Success(value: R) | Failure(error: E)
}
