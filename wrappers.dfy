/** Option and Result, used for the parse failures and the exceptions of the encoder. */
module Wrappers {

  datatype Option<+T> = None | Some(value: T) {
    /** The value, or `fallback` when there is none. */
    function GetOr(fallback: T): T {
      match this
      case Some(v) => v
      case None => fallback
    }
  }

  /** `Err` carries the message that Python's `str(e)` would give for the exception. */
  datatype Result<+T> = Ok(value: T) | Err(message: string)
}
