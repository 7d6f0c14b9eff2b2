/** Option and Result values standing in for JavaScript's `null` and for thrown errors. */
module Wrappers {

  /** `None` plays the part of JavaScript's `null`/`undefined`. */
  datatype Option<+T> = None | Some(value: T)

  /** The outcome of a call that either returns a value or throws. */
  datatype Result<+T, +E> = Success(value: T) | Failure(error: E)

  /** The outcome of a call that returns nothing or throws. */
  datatype Outcome<+E> = Pass | Fail(error: E)
}
