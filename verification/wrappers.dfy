/**
 * Failure-compatible wrappers shared by every module of the model.
 *
 * `Option` stands for Python's `Optional[...]` (a value or `None`) and
 * `Result` for a call that either returns a value or raises an exception.
 */
module Wrappers {

  datatype Option<+T> = None | Some(value: T) {

    /** The wrapped value, or `default` when there is none (Python's `x or default`). */
    function GetOr(default: T): T {
      match this
      case Some(v) => v
      case None => default
    }
  }

  /** `Success(v)` is a normal return; `Failure(e)` is the exception `e` raised by the call. */
  datatype Result<+R, +E> = Success(value: R) | Failure(error: E) {

    predicate IsFailure() {
      Failure?
    }

    function PropagateFailure<U>(): Result<U, E>
      requires Failure?
    {
      Failure(error)
    }

    function Extract(): R
      requires Success?
    {
      value
    }
  }
}
