/**
 * The optional value used where the source has `null`, `undefined` or a
 * missing key, and the outcome of a call that can throw.
 */
module Wrappers {

  datatype Option<+T> = None | Some(value: T) {

    /** The value, or `default` when there is none: JavaScript's `x ?? default`. */
    function GetOr(default: T): T {
      match this
      case Some(v) => v
      case None => default
    }
  }

  /** What a call that may throw produces: its value, or the error it throws. */
  datatype Result<+T, +E> = Success(value: T) | Failure(error: E)
}
