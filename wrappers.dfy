/** Optional values and outcomes shared by every module of the model. */
module Wrappers {

  /** A value that may be absent: JavaScript `null`/`undefined`, Python `None`. */
  datatype Option<+T> = None | Some(value: T) {
    function GetOr(default: T): T {
      match this
      case Some(v) => v
      case None => default
    }
  }

  /** The settled result of an asynchronous call: a payload, or the message of
      the error that the `catch` block receives. */
  datatype Result<+T> = Ok(value: T) | Err(message: string)
}
