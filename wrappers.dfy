/** Option and Result: a nil-able value and an operation that may raise. */
module Wrappers {

  datatype Option<+T> = None | Some(value: T) {
    /** Ruby's `x || default`. */
    function GetOr(default: T): T {
      match this
      case Some(v) => v
      case None => default
    }

    /** Ruby's `x ||= y` on a nil-able value: keep `x` unless it is nil. */
    function OrElse(other: Option<T>): Option<T> {
      if Some? then this else other
    }
  }

  datatype Result<+T, +E> = Ok(value: T) | Err(error: E)
}
