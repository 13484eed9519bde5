/** Optional values, results and outcomes shared by the other modules. */
module Wrappers {

  /** An optional value: Python's `None` or a present value. */
  datatype Option<+T> = None | Some(value: T)

  /** The outcome of an operation that either yields a value or raises. */
  datatype Result<+T, +E> = Success(value: T) | Failure(error: E)

  /** The outcome of an operation that returns nothing or raises. */
  datatype Outcome<+E> = Pass | Fail(error: E)
}
