/** Optional values and results with an error, as the rest of the model uses them. */
module Wrappers {

  /** Python's `None` or a value; a dictionary lookup that may miss. */
  datatype Option<+T> = None | Some(value: T) {
    /** The value, or `default` when there is none: Python's `x or default` for a missing value. */
    function GetOr(default: T): T {
      match this
      case Some(v) => v
      case None => default
    }
  }

  /** A computed value, or the error (an exception or an HTTP error) that stopped it. */
  datatype Result<+T, +E> = Ok(value: T) | Err(error: E)
}
