/** Option and Result, the two failure-carrying types the rest of the model uses. */
module Wrappers {

  datatype Option<+T> = None | Some(value: T)

  /** `Failure` plays the part of a Swift `throw`; `:-` propagates it. */
  datatype Result<+T, +E> = Success(value: T) | Failure(error: E) {

    predicate IsFailure() {
      Failure?
    }

    function PropagateFailure<U>(): Result<U, E>
      requires Failure?
    {
      Failure(error)
    }

    function Extract(): T
      requires Success?
    {
      value
    }
  }
}
