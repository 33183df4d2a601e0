/** Optional values and results shared by every module. */
module Wrappers {

  datatype Option<+T> = None | Some(value: T) {
    function GetOr(default: T): T {
      if Some? then value else default
    }
  }

  /** A Python function that may raise: a value or the error it raises. */
  datatype Result<+T, +E> = Ok(value: T) | Err(error: E)
}
