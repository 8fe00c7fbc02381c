/** Option and Result: Java's null returns and thrown exceptions, as values. */
module Wrappers {

  datatype Option<+T> = None | Some(value: T)

  /** Success carries the returned value, Failure the exception that escaped. */
  datatype Result<+R, +E> = Success(value: R) | Failure(error: E) {

    predicate IsFailure() {
      Failure?
    }

    function PropagateFailure<U>(): Result<U, E>
      requires Failure?
    {
      Failure(error)
    }

    function Extract(): R
      requires Success?
    {
      value
    }
  }
}
