/** Option and Result, the two failure-carrying types the plugins use. */
module Wrappers {

  datatype Option<+T> = None | Some(value: T)

  /** Result of a fallible conversion; usable with `:-`. */
  datatype Result<+R, +E> = Success(value: R) | Failure(error: E) {
    predicate IsFailure() {
      Failure?
    }

    function PropagateFailure<U>(): Result<U, E>
      requires Failure?
    {
      Failure(error)
    }

    function Extract(): R
      requires Success?
    {
      value
    }
  }
}
