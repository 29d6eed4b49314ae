/** The failure types used throughout: a missing row, and a thrown error. */
module Wrappers {

  datatype Option<+T> = None | Some(value: T)

  /** What a call that may throw hands back; usable with `:-`. */
  datatype Result<+T, +E> = Success(value: T) | Failure(error: E) {
    predicate IsFailure() { Failure? }

    function PropagateFailure<U>(): Result<U, E>
      requires Failure?
    {
      Failure(error)
    }

    function Extract(): T
      requires Success?
    {
      value
    }
  }
}
