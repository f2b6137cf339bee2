/** The two failure-carrying datatypes the models share. */
module Wrappers {

  /** A value that may be missing: Python's None, or a dictionary miss. */
  datatype Option<+T> = None | Some(value: T) {
    function GetOr(default: T): T {
      if Some? then value else default
    }
  }

  /** The outcome of a call that may raise. */
  datatype Result<+T, +E> = Ok(value: T) | Err(error: E)
}
