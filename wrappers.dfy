/** Option and Result, the failure-compatible wrappers used throughout the model. */
module Wrappers {

  /** A value that may be absent: JavaScript `undefined`, Python `None`. */
  datatype Option<+T> = None | Some(value: T) {
    function GetOr(default: T): T {
      match this
      case Some(v) => v
      case None => default
    }
  }

  /** The outcome of a validator: the (possibly normalised) value, or the error message it raises. */
  datatype Result<+R, +E> = Success(value: R) | Failure(error: E)
}
