/** Option, Result and Outcome: Python's None and raised exceptions as values. */
module Wrappers {

  /** Python's `Optional[T]`: either `None` or a value. */
  datatype Option<+T> = None | Some(value: T) {
    /** The value, or `default` when there is none (Python's `x if x is not None else default`). */
    function GetOr(default: T): T {
      match this
      case Some(v) => v
      case None => default
    }
  }

  /** A value, or the error a Python function would have raised. */
  datatype Result<+R, +E> = Success(value: R) | Failure(error: E)

  /** No value but possibly an error: a Python function returning `None` or raising. */
  datatype Outcome<+E> = Pass | Fail(error: E)
}
