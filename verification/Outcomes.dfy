/** Failure-compatible result types shared by every module. */
module Outcomes {

  datatype Option<+T> = None | Some(value: T)

  /** A returned value, or the error the source raises instead. */
  datatype Result<+T, +E> = Ok(value: T) | Err(error: E) {

    predicate IsFailure() {
      Err?
    }

    function PropagateFailure<U>(): Result<U, E>
      requires Err?
    {
      Err(error)
    }

    function Extract(): T
      requires Ok?
    {
      value
    }
  }
}
