/** Failure-compatible result types used across the model. */
module Wrappers {

  /** A value that may be missing; usable with `:-`. */
  datatype Option<+T> = None | Some(value: T) {
    predicate IsFailure() { None? }

    function PropagateFailure<U>(): Option<U>
      requires None?
    {
      None
    }

    function Extract(): T
      requires Some?
    {
      value
    }
  }

  /** Success without a value, or a failure carrying an error. */
  datatype Outcome<+E> = Pass | Fail(error: E)
}
