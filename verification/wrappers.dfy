/** Failure-compatible wrappers shared by every module of the model. */
module Wrappers {

  /** An optional value: TypeScript's `T | undefined`, Python's `Optional[T]`. */
  datatype Option<+T> = None | Some(value: T) {

    /** Returns the wrapped value, or `default` when there is none. */
    function GetOr(default: T): T {
      match this
      case Some(v) => v
      case None => default
    }
  }

  /** The outcome of an operation that may throw: a value or an error. */
  datatype Result<+R, +E> = Success(value: R) | Failure(error: E)
}
