// Optional values and computations that may raise.
module Wrappers {

  datatype Option<+T> = None | Some(value: T)

  /** A value, or the exception raised instead of one. */
  datatype Result<+T, +E> = Ok(value: T) | Err(error: E) {

    predicate IsFailure() {
      Err?
    }

    function PropagateFailure<U>(): Result<U, E>
      requires Err?
    {
      Err(error)
    }

    function Extract(): T
      requires Ok?
    {
      value
    }
  }
}
