/**
 * Failure-carrying datatypes. `Option` stands for a C# nullable value or
 * reference; `Result` stands for a call that either returns a value or
 * throws an exception.
 */
module Wrappers {

  datatype Option<+T> = None | Some(value: T) {

    /** The wrapped value, or `default` when there is none. */
    function GetOr(default: T): T {
      match this
      case Some(v) => v
      case None => default
    }
  }

  datatype Result<+T, +E> = Ok(value: T) | Err(error: E)

  /** A call that returns nothing on success. */
  datatype Outcome<+E> = Pass | Fail(error: E)
}
