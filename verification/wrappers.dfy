/** Failure-compatible wrappers shared by every module of the model:
    `Option` for Python's `None`-able values, `Result` for functions that
    return a value or raise, `Outcome` for checks that return nothing or raise. */
module Wrappers {

  datatype Option<+T> = None | Some(value: T) {
    /** `d.get(k, default)`: the stored value, or `default` when the key is absent. */
    function GetOr(default: T): T {
      match this
      case Some(v) => v
      case None => default
    }
  }

  datatype Result<+R, +E> = Success(value: R) | Failure(error: E) {
    predicate IsFailure() { Failure? }

    function PropagateFailure<U>(): Result<U, E>
      requires Failure?
    {
      Failure(error)
    }

    function Extract(): R
      requires Success?
    {
      value
    }
  }

  datatype Outcome<+E> = Pass | Fail(error: E) {
    predicate IsFailure() { Fail? }

    function PropagateFailure(): Outcome<E>
      requires Fail?
    {
      this
    }

    /** Sequential composition of two fail-fast checks: the first failure wins. */
    function Then(next: Outcome<E>): Outcome<E> {
      if Fail? then this else next
    }
  }
}
