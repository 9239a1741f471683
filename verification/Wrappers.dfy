/** Failure-carrying wrappers shared by the other modules. */
module Wrappers {

  /** A value that may be absent (JavaScript's `undefined`, `null` or another falsy value). */
  datatype Option<+T> = None | Some(value: T)

  /** The value of an operation that either returns or throws. */
  datatype Result<+T, +E> = Success(value: T) | Failure(error: E)

  /** The outcome of an operation that returns nothing or throws. */
  datatype Outcome<+E> = Pass | Fail(error: E)
}
