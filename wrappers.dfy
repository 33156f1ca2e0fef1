/** Optional values and results with an error, used wherever the modelled
    code returns None or raises. */
module Wrappers {

  datatype Option<+T> = None | Some(value: T) {
    function GetOr(default: T): T {
      match this
      case Some(v) => v
      case None => default
    }
  }

  /** Outcome of a call that either returns a value or raises an exception
      whose message is `error`. */
  datatype Result<+T> = Ok(value: T) | Err(error: string)
}
