/** Failure-carrying values used throughout the model: `Option` for an absent
    value or a decode failure, `Result` for an operation that may return an error. */
module Wrappers {

  datatype Option<+T> = None | Some(value: T) {
    function GetOr(default: T): T {
      match this
      case Some(v) => v
      case None => default
    }
  }

  datatype Result<+R, +E> = Success(value: R) | Failure(error: E) {
    predicate IsFailure() {
      Failure?
    }
  }

  /** The outcome of an operation that returns only an error (Go's `error`). */
  datatype Outcome<+E> = Pass | Fail(error: E)
}
