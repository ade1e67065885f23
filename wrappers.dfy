/** Option and Outcome, the failure-compatible wrappers used throughout the model. */
module Wrappers {

  /** A JavaScript value that may be `null` (or `undefined`). */
  datatype Option<+T> = None | Some(value: T) {
    function GetOr(default: T): T {
      match this
      case Some(v) => v
      case None => default
    }
  }

  /** The result of an awaited call that either returns a value or throws. */
  datatype Outcome<+T> = Ok(value: T) | Thrown(message: string)
}
