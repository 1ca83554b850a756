/** Python's `None`-or-value and raise-or-return, as values. */
module Wrappers {

  /** A value that may be absent (`None` in the source). */
  datatype Option<+T> = None | Some(value: T)

  /** The outcome of a call that either returns a value or raises an exception. */
  datatype Result<+R, +E> = Success(value: R) | Failure(error: E)

  /** The outcome of a call that returns nothing or raises an exception. */
  datatype Outcome<+E> = Pass | Fail(error: E)
}
