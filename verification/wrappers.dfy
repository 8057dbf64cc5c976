/** Option and outcome types used for absent values and rejected form submissions. */
module Wrappers {

  /** An optional value: TypeScript's `T | undefined`. */
  datatype Option<+T> = None | Some(value: T) {
    function GetOr(default: T): T {
      match this
      case Some(v) => v
      case None => default
    }
  }

  /** A computed value, or the reason it could not be computed. */
  datatype Result<+T, +E> = Success(value: T) | Failure(error: E)

  /** The result of a user action that is either carried out or rejected with a reason. */
  datatype Outcome<+E> = Pass | Fail(error: E)
}
