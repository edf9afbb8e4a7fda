/** Option and Result: values Go may leave nil, and (value, error) pairs. */
module Wrappers {

  /** A value that may be absent (nil in Go). */
  datatype Option<+T> = None | Some(value: T) {
    function GetOr(default: T): (r: T) {
      match this
      case Some(v) => v
      case None => default
    }
  }

  /** A Go `(value, error)` return. */
  datatype Result<+T, +E> = Success(value: T) | Failure(error: E)
}
