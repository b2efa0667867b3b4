/** Option and Result, the two failure-carrying shapes used across the model. */
module Wrappers {

  /** A value that may be absent: PHP `null`, a JavaScript `undefined`/`null`. */
  datatype Option<+T> = None | Some(value: T) {
    function GetOr(default: T): T {
      match this
      case Some(v) => v
      case None => default
    }
  }

  /** The outcome of an operation that either returns a value or throws. */
  datatype Result<+T, +E> = Ok(value: T) | Err(error: E)
}
