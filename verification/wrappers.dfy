/** Failure-compatible helper types used throughout the model. */
module Wrappers {

  datatype Option<+T> = None | Some(value: T)

  /** The outcome of an operation that can throw: a value, or the exception's message. */
  datatype Result<+T, +E> = Success(value: T) | Failure(error: E) {

    predicate IsFailure() {
      Failure?
    }

    function PropagateFailure<U>(): Result<U, E>
      requires Failure?
    {
      Failure(error)
    }

    function Extract(): T
      requires Success?
    {
      value
    }
  }

  /** The error of a result, if any. */
  function ErrorOf<T, E>(r: Result<T, E>): Option<E>
  {
    match r
    case Success(_) => None
    case Failure(e) => Some(e)
  }
}
