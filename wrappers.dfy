/** Failure-carrying datatypes shared by the model. */
module Wrappers {

  /** A value that may be absent: a nullable column, an optional protobuf field, a failed lookup. */
  datatype Option<+T> = None | Some(value: T) {
    /** The carried value, or `default` when there is none. */
    function GetOr(default: T): T {
      match this
      case Some(v) => v
      case None => default
    }
  }

  /** The result of an operation that may throw. */
  datatype Result<+R, +E> = Success(value: R) | Failure(error: E)

  /** The outcome of a check that has no value to return. */
  datatype Outcome<+E> = Pass | Fail(error: E)
}
