/** Failure-carrying values that stand in for JavaScript's `null` and thrown errors. */
module Wrappers {

  /** `T | null`. */
  datatype Option<T> = None | Some(value: T)

  /** A value, or the error a call throws instead of returning it. */
  datatype Result<T, E> = Ok(value: T) | Err(error: E)

  /** A call that returns nothing, or the error it throws. */
  datatype Outcome<E> = Pass | Fail(error: E)
}
