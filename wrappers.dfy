/** Option, Result and Outcome: how the model writes Python's `None` and raised exceptions. */
module Wrappers {

  /** A value or Python's `None`. */
  datatype Option<+T> = None | Some(value: T)

  /** A returned value or a raised exception. */
  datatype Result<+R, +E> = Success(value: R) | Failure(error: E)

  /** A call that returns nothing, or raises. */
  datatype Outcome<+E> = Pass | Fail(error: E)
}
