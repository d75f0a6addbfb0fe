/** Failure-carrying results shared by every module of the model. */
module Wrappers {

  /** A value that may be missing (the model of a NaN/None column entry). */
  datatype Option<+T> = None | Some(value: T)

  /** The value of a computation or the error the source would raise. */
  datatype Result<+T, +E> = Success(value: T) | Failure(error: E) {
    predicate IsFailure() { Failure? }

    function PropagateFailure<U>(): Result<U, E>
      requires Failure?
    {
      Failure(error)
    }

    function Extract(): T
      requires Success?
    {
      value
    }
  }
}
