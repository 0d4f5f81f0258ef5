/** Option and Result values for absent data and reported failures. */
module Wrappers {

  /** A value that may be absent: JavaScript's `undefined` or SQL's NULL. */
  datatype Option<+T> = None | Some(value: T) {
    function GetOr(default: T): T {
      match this
      case Some(v) => v
      case None => default
    }
  }

  /** Either a value or the list of problems that prevented it. */
  datatype Result<+R, +E> = Ok(value: R) | Err(error: E)
}
