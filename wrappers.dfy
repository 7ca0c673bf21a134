/** Option, Result and Outcome: Java's null references and thrown exceptions, as values. */
module Wrappers {

  /** A value that may be absent (a Java reference that may be null). */
  datatype Option<+T> = None | Some(value: T)

  /** A returned value, or the exception thrown instead. */
  datatype Result<+T, +E> = Success(value: T) | Failure(error: E)

  /** Normal completion of a void call, or the exception thrown instead. */
  datatype Outcome<+E> = Pass | Fail(error: E)
}
