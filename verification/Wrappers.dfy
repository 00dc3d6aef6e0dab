/** Absent-or-present values and the outcome of a call that may raise. */
module Wrappers {

  datatype Option<+T> = None | Some(value: T) {
    /** Python's `x or default` for a value that is never falsy. */
    function GetOr(default: T): T {
      match this
      case Some(v) => v
      case None => default
    }
  }

  datatype Result<+T, +E> = Ok(value: T) | Err(error: E)
}
