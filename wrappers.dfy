/** Small failure-carrying datatypes used by the recency buffer model. */
module Wrappers {

  /** A value that may be absent; stands for Python's `None` return. */
  datatype Option<+T> = None | Some(value: T)

  /** The value an operation computes, or the exception it raises. */
  datatype Result<+R, +E> = Success(value: R) | Failure(error: E)

  /** The completion of an operation that returns nothing: normally, or by raising. */
  datatype Outcome<+E> = Pass | Fail(error: E)
}
