/** Option and Result, the failure-compatible wrappers used throughout. */
module Wrappers {

  datatype Option<+T> = None | Some(value: T)

  /** The value of a computation, or the exception it raised. */
  datatype Result<+T, +E> = Ok(value: T) | Err(error: E) {

    predicate IsFailure() {
      Err?
    }

    function PropagateFailure<U>(): Result<U, E>
      requires Err?
    {
      Err(error)
    }

    function Extract(): T
      requires Ok?
    {
      value
    }
  }
}
