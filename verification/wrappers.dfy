/** Option and Result, the two failure-compatible wrappers the model uses for
    Python's `None` and for the dispatcher's `ValueError`. */
module Wrappers {

  /** A value that may be absent (Python `Optional[...]`). */
  datatype Option<+T> = None | Some(value: T) {

    /** The wrapped value, or `default` when absent. */
    function GetOr(default: T): T {
      match this
      case Some(v) => v
      case None => default
    }
  }

  /** Either a value or the error that was raised instead of it. */
  datatype Result<+R, +E> = Success(value: R) | Failure(error: E)
}
