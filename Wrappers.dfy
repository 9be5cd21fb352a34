/** Failure-carrying values: an optional value, a value-or-error, and a pass-or-error. */
module Wrappers {

  /** A value that may be absent: the model's stand-in for a C# null reference. */
  datatype Option<+T> = None | Some(value: T)

  /** The outcome of an operation that returns a value or throws an exception with a message. */
  datatype Result<+R, +E> = Success(value: R) | Failure(error: E)

  /** The outcome of an operation that returns nothing or throws an exception with a message. */
  datatype Outcome<+E> = Pass | Fail(error: E)
}
