/** Option, Result and Outcome: the model's stand-ins for Swift optionals and thrown errors. */
module Wrappers {

  datatype Option<+T> = None | Some(value: T) {
    predicate IsFailure() { None? }

    function PropagateFailure<U>(): Option<U>
      requires None?
    {
      None
    }

    function Extract(): T
      requires Some?
    {
      value
    }

    /** Swift's `??` operator. */
    function GetOr(default: T): T {
      if Some? then value else default
    }
  }

  /** The value of an `async throws` call: what it returned, or what it threw. */
  datatype Result<+R, +E> = Success(value: R) | Failure(error: E) {
    predicate IsFailure() { Failure? }

    function PropagateFailure<U>(): Result<U, E>
      requires Failure?
    {
      Failure(error)
    }

    function Extract(): R
      requires Success?
    {
      value
    }
  }

  /** The value of a `throws` call that returns nothing. */
  datatype Outcome<+E> = Pass | Fail(error: E)
}
