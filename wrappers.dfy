/** Option and Result: the null / rejected-value shapes of the store. */
module Wrappers {

  /** A value that may be missing (JavaScript's `null`). */
  datatype Option<+T> = None | Some(value: T) {
    function GetOr(default: T): T {
      match this
      case Some(v) => v
      case None => default
    }
  }

  /** The outcome of an async thunk: fulfilled with a payload or rejected with a value. */
  datatype Result<+R, +E> = Ok(value: R) | Err(error: E)
}
