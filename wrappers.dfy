/** Option and Result, the failure-carrying values used throughout the model. */
module Wrappers {

  datatype Option<+T> = None | Some(value: T) {
    /** The value, or `default` when there is none (Python's `x or default` for optional strings). */
    function GetOr(default: T): T {
      match this
      case Some(v) => v
      case None => default
    }
  }

  /** Success carries a value; Failure carries the exception the source would raise. */
  datatype Result<+R, +E> = Success(value: R) | Failure(error: E)
}
