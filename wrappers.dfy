/** The optional-value and success-or-error datatypes shared by the other modules. */
module Wrappers {

  /** A value that may be absent (a JavaScript `undefined` option, a `null` return). */
  datatype Option<+T> = None | Some(value: T) {

    /** The wrapped value, or `default` when absent. */
    function GetOr(default: T): T {
      match this
      case Some(v) => v
      case None => default
    }
  }

  /** The outcome of an operation that either succeeds with a value or fails with an error. */
  datatype Result<+R, +E> = Success(value: R) | Failure(error: E)
}
