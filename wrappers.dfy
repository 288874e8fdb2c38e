/** Optional values and results of operations that may fail. */
module Wrappers {
  import opened Exceptions

  datatype Option<T> = None | Some(value: T)

  /** The outcome of an operation that either returns a value or raises one of the errors in `Exceptions`. */
  datatype Result<T> = Success(value: T) | Failure(error: Error)

  /** The outcome of a mutating operation that returns nothing or raises. */
  datatype Outcome = Pass | Fail(error: Error)
}
