/** Option and Result: the absent value and the thrown exception of the modelled code. */
module Wrappers {

  /** A value that may be missing (a null reference, a failed TryParse, a cancelled dialog). */
  datatype Option<+T> = None | Some(value: T) {
    /** The value, or `default` when missing: C#'s `x ?? default`. */
    function GetOr(default: T): T {
      match this
      case Some(v) => v
      case None => default
    }
  }

  /** The outcome of code that may throw: its value, or the exception's message. */
  datatype Result<+R> = Success(value: R) | Failure(error: string)
}
