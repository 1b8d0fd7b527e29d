/** Failure-carrying result types shared by every component. */
module Wrappers {

  /** A value that may be absent: JavaScript's `undefined`/`null` for an optional field. */
  datatype Option<+T> = None | Some(value: T) {
    /** The `x || d` idiom for a field whose only falsy value is its absence. */
    function GetOr(default: T): T {
      match this
      case Some(v) => v
      case None => default
    }
  }

  /** The outcome of a call to an external service: a value, or the error it raised. */
  datatype Result<+T> = Success(value: T) | Failure(error: string)
}
