/** Optional values and outcomes with an error, used for TypeScript's
    `undefined`/`null` and for thrown exceptions. */
module Wrappers {

  datatype Option<+T> = None | Some(value: T) {
    function GetOr(default: T): T {
      match this
      case Some(v) => v
      case None => default
    }
  }

  /** A computation that either produced a value or threw an error whose
      message is `error`. */
  datatype Result<+T, +E> = Ok(value: T) | Err(error: E)
}
