/** Option and Result, used for the source's `null` results and its thrown errors. */
module Wrappers {

  datatype Option<+T> = None | Some(value: T) {
    function GetOr(default: T): T {
      match this
      case Some(v) => v
      case None => default
    }
  }

  /** `Err` carries the message of the JavaScript `Error` that the source throws or rejects with. */
  datatype Result<+T> = Ok(value: T) | Err(message: string)
}
