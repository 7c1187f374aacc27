/** Failure-carrying values shared by every module: a Python `None`-or-value
    and a value-or-raised-exception. */
module Wrappers {

  datatype Option<+T> = None | Some(value: T) {
    function GetOr(default: T): T {
      match this
      case Some(v) => v
      case None => default
    }
  }

  /** `Raised(msg)` stands for a Python exception whose `str()` is `msg`. */
  datatype Result<+T> = Ok(value: T) | Raised(msg: string)
}
