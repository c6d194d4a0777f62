/** Failure-compatible result types shared by the models of this project. */
module Wrappers {

  datatype Option<+T> = None | Some(value: T) {
    function GetOr(default: T): T {
      match this
      case Some(v) => v
      case None => default
    }
  }

  /** A call either returns a value or raises; a raised call has no effect on stored rows. */
  datatype Result<+T, +E> = Success(value: T) | Failure(error: E)
}
