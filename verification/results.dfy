/** The outcome of a computation that can fail, usable with `:-`. */
module Results {

  datatype Result<+T, +E> = Success(value: T) | Failure(error: E) {

    predicate IsFailure() {
      Failure?
    }

    function PropagateFailure<U>(): Result<U, E>
      requires Failure?
    {
      Failure(error)
    }

    function Extract(): T
      requires Success?
    {
      value
    }
  }

  /** A value that may be missing; pandas' NaN in a weight column. */
  datatype Option<+T> = None | Some(value: T)
}
