/** Option and Result values shared by every module of the model. */
module Wrappers {

  /** A value that may be absent: Python's `None` or a missing dictionary key. */
  datatype Option<+T> = None | Some(value: T) {
    function GetOr(default: T): T {
      match this
      case Some(v) => v
      case None => default
    }
  }

  /** The outcome of a step that may raise an exception the source does not catch. */
  datatype Result<+T, +E> = Ok(value: T) | Failed(error: E)
}
