/** Optional values and results with an error message. */
module Wrappers {

  datatype Option<+T> = None | Some(value: T) {
    function GetOr(default: T): T {
      match this
      case Some(v) => v
      case None => default
    }
  }

  /** The outcome of an operation that can raise: its value, or the message of the error it raised. */
  datatype Result<+T> = Ok(value: T) | Err(message: string)
}
