/** Failure-compatible wrappers used for the source's `None` values and raised exceptions. */
module Wrappers {

  /** A Python value that may be `None`. */
  datatype Option<+T> = None | Some(value: T) {

    /** The wrapped value, or `default` when this is None (Python's `x if x is not None else default`). */
    function GetOr(default: T): T {
      match this
      case Some(v) => v
      case None => default
    }
  }

  /** Either a returned value or a raised exception. */
  datatype Result<+R, +E> = Success(value: R) | Failure(error: E)
}
