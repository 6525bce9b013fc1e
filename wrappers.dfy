/** Option, Result and Outcome: the values that stand for PHP's null and its exceptions. */
module Wrappers {

  /** A value that may be PHP's `null`. */
  datatype Option<+T> = None | Some(value: T) {

    /** The value, or `default` when this is `None` (PHP's `??`). */
    function GetOr(default: T): T
    {
      match this
      case Some(v) => v
      case None => default
    }
  }

  /** A computed value, or the exception that was thrown instead. */
  datatype Result<+R, +E> = Success(value: R) | Failure(error: E)

  /** A step that returns nothing, or the exception that was thrown instead. */
  datatype Outcome<+E> = Pass | Fail(error: E)
}
