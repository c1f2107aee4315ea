/** Option and Result values used across the model. */
module Wrappers {

  /** A value that may be absent: JavaScript's `undefined`/`null`, or NaN from a number parse. */
  datatype Option<+T> = None | Some(value: T) {
    function GetOr(default: T): T {
      match this
      case Some(v) => v
      case None => default
    }
  }

  /** A computation that either succeeds or throws with a message. */
  datatype Result<+T> = Ok(value: T) | Err(message: string)
}
