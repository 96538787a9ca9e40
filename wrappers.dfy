/** Option, Result and Outcome: the values a Java method returns, throws or leaves null. */
module Wrappers {

  /** A reference that may be `null`. */
  datatype Option<+T> = None | Some(value: T)

  /** The value a Java call returns, or the exception it throws. */
  datatype Result<+T, +E> = Success(value: T) | Failure(error: E)

  /** A `void` Java call: it returns normally or throws. */
  datatype Outcome<+E> = Pass | Fail(error: E)
}
