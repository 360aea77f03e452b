/** Failure-compatible result types used by the model in place of Go's
    `(value, error)` return pairs. */
module Wrappers {

  datatype Option<+T> = None | Some(value: T)

  /** Either a value or the error that replaced it. Usable with `:-`. */
  datatype Result<+T, +E> = Success(value: T) | Failure(error: E) {

    predicate IsFailure() {
      Failure?
    }

    function PropagateFailure<U>(): Result<U, E>
      requires Failure?
    {
      Failure(error)
    }

    function Extract(): T
      requires Success?
    {
      value
    }
  }
}
