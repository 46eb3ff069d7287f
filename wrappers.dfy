/** Option and Result, the failure-carrying values used throughout the model
    in place of JavaScript's `undefined`/`null` and thrown exceptions. */
module Wrappers {

  datatype Option<+T> = None | Some(value: T) {
    /** `x ?? d` */
    function GetOr(default: T): T {
      match this
      case Some(v) => v
      case None => default
    }
  }

  /** A call that either returned a value or threw an error whose text is `error`. */
  datatype Result<+R> = Ok(value: R) | Err(error: string)
}
