/** Optional values and results with an error message, standing in for Python's
    `None` and for exceptions raised by the modelled code. */
module Wrappers {

  datatype Option<+T> = None | Some(value: T) {
    function GetOr(default: T): T {
      match this
      case Some(v) => v
      case None => default
    }
  }

  /** `Err(exception, message)` stands for an exception that escapes the
      operation: the name of its Python class, and its text as `str(e)`
      renders it. */
  datatype Result<+T> = Ok(value: T) | Err(exception: string, message: string)
}
