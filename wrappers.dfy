/** Failure-carrying values used in place of Go's (value, error) pairs. */
module Wrappers {

  datatype Option<+T> = None | Some(value: T)

  /** A value or an error; Go's `(T, error)` return. */
  datatype Result<+T, +E> = Success(value: T) | Failure(error: E) {
    /** The value, forgetting the error. */
    function ToOption(): Option<T> {
      if Success? then Some(value) else None
    }
  }

  /** Success without a value, or an error; Go's bare `error` return. */
  datatype Outcome<+E> = Pass | Fail(error: E)
}
