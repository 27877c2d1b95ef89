/** Option and Result, the two failure-carrying values the rest of the model uses:
    `None` stands for JavaScript's `null`/`undefined`, `Failure(message)` for an
    `Error` thrown with that message. */
module Wrappers {

  datatype Option<+T> = None | Some(value: T) {
    /** The value, or `default` when there is none (JavaScript's `x ?? default`). */
    function GetOr(default: T): T {
      match this
      case Some(v) => v
      case None => default
    }
  }

  datatype Result<+R> = Success(value: R) | Failure(message: string) {
    predicate IsFailure() {
      Failure?
    }

    function PropagateFailure<U>(): Result<U>
      requires Failure?
    {
      Failure(message)
    }

    function Extract(): R
      requires Success?
    {
      value
    }
  }
}
