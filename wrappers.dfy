/** Failure-compatible result types: Python's `None` and raised exceptions
    become values that callers must inspect. */
module Wrappers {

  /** A value that may be missing (`T | None` in the Python source). */
  datatype Option<+T> = None | Some(value: T)

  /** The result of an operation that either returns a value or raises. */
  datatype Result<+R, +E> = Success(value: R) | Failure(error: E)

  /** The result of an operation that returns nothing or raises. */
  datatype Outcome<+E> = Pass | Fail(error: E)
}
