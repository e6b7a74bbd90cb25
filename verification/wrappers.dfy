/** Optional values and results shared by the rest of the model. */
module Wrappers {

  /** A value that may be missing, in place of Python's `None`. */
  datatype Option<+T> = None | Some(value: T) {

    /** The value, or `default` when it is missing. */
    function GetOr(default: T): T {
      match this
      case Some(v) => v
      case None => default
    }
  }

  /** Either a value or an error, in place of a Python exception. */
  datatype Result<+R, +E> = Ok(value: R) | Err(error: E)
}
