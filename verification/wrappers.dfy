/** Option and Result, the two failure-carrying shapes the rest of the model returns. */
module Wrappers {

  /** A value that may be absent: Python's `Optional[T]`, with `None` for absent. */
  datatype Option<+T> = None | Some(value: T) {

    /** The wrapped value, or `default` when absent. */
    function GetOr(default: T): T {
      match this
      case Some(v) => v
      case None => default
    }
  }

  /** Either a value or an error: an operation that returns or raises. */
  datatype Result<+T, +E> = Success(value: T) | Failure(error: E)
}
