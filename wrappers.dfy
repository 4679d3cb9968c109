/** Failure-carrying values: the model's stand-in for Python's `None` and for raised exceptions. */
module Wrappers {

  /** A Python value that may be `None`. */
  datatype Option<+T> = None | Some(value: T)

  /** A call that either returns a value or raises an error. */
  datatype Result<+R, +E> = Success(value: R) | Failure(error: E)

  /** A call that returns nothing (`None`) or raises an error. */
  datatype Outcome<+E> = Pass | Fail(error: E)
}
