/**
 * The optional-value type used wherever the source returns or stores `None`,
 * and the outcome of a step that can raise.
 */
module Wrappers {

  datatype Option<+T> = None | Some(value: T) {

    /** The value, or `default` when there is none (Python's `x if x is not None else default`). */
    function GetOr(default: T): T {
      match this
      case Some(v) => v
      case None => default
    }
  }

  /** A value, or the message of the exception raised instead. */
  datatype Result<+T> = Success(value: T) | Failure(error: string)
}
