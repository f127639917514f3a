/** Option and Result values shared by every service model. */
module Wrappers {

  /** A value that may be absent: JavaScript's `null`/`undefined`, a missing row. */
  datatype Option<+T> = None | Some(value: T) {
    function GetOr(default: T): T {
      match this
      case Some(v) => v
      case None => default
    }
  }

  /** The outcome of a resolver: a value, or the message of the error it throws. */
  datatype Result<+T> = Ok(value: T) | Err(msg: string)
}
