/** Optional values and fallible results shared by every module of the worker model. */
module Wrappers {

  /** A value that may be absent: Python's `None` versus a present value. */
  datatype Option<+T> = None | Some(value: T) {
    function GetOr(default: T): T {
      match this
      case Some(v) => v
      case None => default
    }
  }

  /** The outcome of a Python step that may raise: `Raised` stands for an uncaught exception. */
  datatype Result<+T> = Ok(value: T) | Raised(reason: string)
}
