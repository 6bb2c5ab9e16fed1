/** Option, Result and Outcome: the model's form of Go's `(value, error)` returns. */
module Wrappers {

  datatype Option<+T> = None | Some(value: T)

  /** A call that yields a value or an error. */
  datatype Result<+T, +E> = Success(value: T) | Failure(error: E)

  /** A call that yields only an error, or nil. */
  datatype Outcome<+E> = Pass | Fail(error: E)
}
