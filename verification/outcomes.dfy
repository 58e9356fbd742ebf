/** Optional values and success-or-failure results, used where the Java code
    returns null or throws. */
module Outcomes {

  /** A value that may be absent; `None` plays the part of Java's null. */
  datatype Option<+T> = None | Some(value: T) {

    /** The value, or `default` when absent. */
    function GetOr(default: T): T {
      match this
      case Some(v) => v
      case None => default
    }
  }

  /** The outcome of an operation that returns a value or throws. */
  datatype Result<+T, +E> = Ok(value: T) | Err(error: E)
}
