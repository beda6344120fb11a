/** Failure-compatible result types shared by the whole model. */
module Wrappers {

  datatype Option<+T> = None | Some(value: T) {
    function GetOr(default: T): T {
      if Some? then value else default
    }
  }

  /** The source's `Result`: a value, or the error that made the operation bail out. */
  datatype Result<+T, +E> = Ok(value: T) | Err(error: E)
}
