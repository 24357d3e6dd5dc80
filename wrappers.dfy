/** Failure-carrying datatypes used to model the exceptions the dumper raises. */
module Wrappers {

  datatype Option<+T> = None | Some(value: T) {
    /** The value in Some, or the given default for None. */
    function GetOr(default: T): T {
      match this
      case Some(v) => v
      case None => default
    }
  }

  /** The result of a call that either returns a value or raises an error. */
  datatype Result<+T, +E> = Success(value: T) | Failure(error: E)

  /** The result of a call that returns nothing or raises an error. */
  datatype Outcome<+E> = Pass | Fail(error: E)
}
