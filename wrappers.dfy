/** Option and Result, the failure-compatible wrappers the other modules share. */
module Wrappers {

  datatype Option<+T> = None | Some(value: T) {

    /** dict.get(key, default) style access: the value, or the default when absent. */
    function GetOr(default: T): T {
      match this
      case Some(v) => v
      case None => default
    }
  }

  /** The outcome of an operation that may raise: a value, or the error it raises. */
  datatype Result<+T, +E> = Success(value: T) | Failure(error: E) {

    predicate IsFailure() {
      Failure?
    }

    function PropagateFailure<U>(): Result<U, E>
      requires Failure?
    {
      Failure(error)
    }

    function Extract(): T
      requires Success?
    {
      value
    }

    /** The value, or None for an error. */
    function ToOption(): Option<T> {
      if Success? then Some(value) else None
    }
  }
}
