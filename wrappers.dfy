/** Failure-carrying result types shared by the configuration and scraper models. */
module Wrappers {

  /** A value that may be absent, as Python's `None` or a failed lookup. */
  datatype Option<+T> = None | Some(value: T)

  /** The outcome of an operation that can raise: its value or the exception it raised. */
  datatype Result<+T, +E> = Success(value: T) | Failure(error: E)

  /** The outcome of an operation that returns nothing but can raise. */
  datatype Outcome<+E> = Pass | Fail(error: E)
}
