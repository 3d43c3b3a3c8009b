/** Optional values and failure-compatible results, standing for Java's nullable
    references and for the exceptions that the modelled code lets propagate. */
module Wrappers {

  /** A nullable value: `None` is Java's `null`. */
  datatype Option<+T> = None | Some(value: T)

  /** The value of a call that either returns normally or throws `error`. */
  datatype Result<+R, +E> = Success(value: R) | Failure(error: E) {
    predicate IsFailure() {
      Failure?
    }

    function PropagateFailure<U>(): Result<U, E>
      requires Failure?
    {
      Failure(error)
    }

    function Extract(): R
      requires Success?
    {
      value
    }
  }

  /** The outcome of a `void` call that may throw `error`. */
  datatype Outcome<+E> = Pass | Fail(error: E)
}
