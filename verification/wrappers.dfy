/** Option and Result: the model's stand-ins for null references and for
    exceptions that abort the processing of an event. */
module Wrappers {

  /** A reference that may be null (edm::Ptr / edm::Ref / panda Ref). */
  datatype Option<+T> = None | Some(value: T)

  /** The value of a computation, or the error that aborted it. */
  datatype Result<+T, +E> = Success(value: T) | Failure(error: E) {

    predicate IsFailure() {
      Failure?
    }

    function PropagateFailure<U>(): Result<U, E>
      requires Failure?
    {
      Failure(error)
    }

    function Extract(): T
      requires Success?
    {
      value
    }
  }
}
