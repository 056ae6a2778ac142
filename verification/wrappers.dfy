/** Value-or-error pairs, as Go's (value, error), shared by the store and the rule engine. */
module Wrappers {

  datatype Option<+T> = None | Some(value: T)

  /** The value of a computation that may fail with an error value, as a Go `(value, error)` pair does. */
  datatype Result<+R, +E> = Success(value: R) | Failure(error: E)
}
