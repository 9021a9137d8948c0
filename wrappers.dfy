/** Result types shared by the model. */
module Wrappers {

  datatype Option<+T> = None | Some(value: T)

  /** A computation that either produced a value or raised an error. */
  datatype Result<+R, +E> = Success(value: R) | Failure(error: E)

  /** A check that either passed or raised an error (a `void` PHP function that may throw). */
  datatype Outcome<+E> = Pass | Fail(error: E)
}
