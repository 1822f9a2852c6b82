/** Option and Result, the failure-carrying values used throughout the model. */
module Wrappers {

  datatype Option<+T> = None | Some(value: T) {
    function GetOr(default: T): T {
      match this
      case Some(v) => v
      case None => default
    }
  }

  /** A call that either returns a value or fails with an error (a rejected promise). */
  datatype Result<+R, +E> = Success(value: R) | Failure(error: E)
}
