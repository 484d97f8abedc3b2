/** The two failure-carrying datatypes the model uses in place of Python's `None` and exceptions. */
module Wrappers {

  /** A value that may be absent: Python's `None` versus a present value. */
  datatype Option<+T> = None | Some(value: T) {

    /** The value, or `default` when absent. */
    function GetOr(default: T): T {
      match this
      case Some(v) => v
      case None => default
    }
  }

  /** Either a successful value or the error a Python function would raise. */
  datatype Result<+R, +E> = Success(value: R) | Failure(error: E)
}
