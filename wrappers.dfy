/** Failure-carrying values shared by the modules of the model. */
module Wrappers {

  /** A value that may be absent (Swift's `T?`). */
  datatype Option<+T> = None | Some(value: T)

  /** The value of a throwing Swift call: it returns `value` or throws `error`. */
  datatype Result<+R, +E> = Success(value: R) | Failure(error: E)

  /** The outcome of a throwing Swift call that returns nothing. */
  datatype Outcome<+E> = Pass | Fail(error: E)
}
