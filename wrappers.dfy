/** Option and Result: the absent value (`None`) and the raised exception of the
    original program, made explicit. */
module Wrappers {

  datatype Option<+T> = None | Some(value: T) {
    function GetOr(default: T): T {
      match this
      case Some(v) => v
      case None => default
    }
  }

  /** `Err(msg)` stands for a Python exception whose `str()` is `msg`. */
  datatype Result<+T, +E> = Ok(value: T) | Err(error: E)
}
