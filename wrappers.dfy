/** Option and Result, used for nullable columns and for error returns. */
module Wrappers {

  /** A nullable value: SQL NULL, Python None, JavaScript null. */
  datatype Option<+T> = None | Some(value: T) {
    function GetOr(default: T): T {
      match this
      case Some(v) => v
      case None => default
    }
  }

  /** The outcome of an operation that may fail with an error value. */
  datatype Result<+R, +E> = Ok(value: R) | Err(error: E)
}
