/** Option and Result, the failure-carrying values the handlers return. */
module Wrappers {

  datatype Option<+T> = None | Some(value: T) {
    function GetOr(default: T): T {
      match this
      case Some(v) => v
      case None => default
    }
  }

  /** A handler either answers with a value or with one of the error kinds it distinguishes. */
  datatype Result<+T, +E> = Ok(value: T) | Err(error: E)
}
