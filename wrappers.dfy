/** Failure-compatible wrappers shared by the whole model. */
module Wrappers {

  /** A value that may be absent: JavaScript's `undefined` / `null`. */
  datatype Option<+T> = None | Some(value: T) {
    function GetOr(default: T): T {
      match this
      case Some(v) => v
      case None => default
    }
  }

  /** The outcome of an operation that returns nothing or throws an error. */
  datatype Outcome<+E> = Pass | Fail(error: E)
}
