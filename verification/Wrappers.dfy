/** Values that stand for an absent answer, a raised exception, or neither. */
module Wrappers {

  datatype Option<+T> = None | Some(value: T)

  /** A value, or the error the source raises instead. */
  datatype Result<+T, +E> = Ok(value: T) | Err(error: E) {
    predicate IsFailure() { Err? }

    function PropagateFailure<U>(): Result<U, E>
      requires Err?
    {
      Err(error)
    }

    function Extract(): T
      requires Ok?
    {
      value
    }
  }

  /** A call that returns nothing: it either comes back or raises. */
  datatype Outcome<+E> = Returned | Raised(error: E) {
    predicate IsFailure() { Raised? }

    function PropagateFailure(): Outcome<E>
      requires Raised?
    {
      this
    }
  }
}
