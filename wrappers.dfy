/** Failure-compatible result and option types used throughout the model. */
module Wrappers {

  datatype Option<+T> = None | Some(value: T)

  /** `Ok(value)` or `Err(error)`; usable with `:-`. */
  datatype Result<+T, +E> = Ok(value: T) | Err(error: E) {

    predicate IsFailure() {
      Err?
    }

    function PropagateFailure<U>(): Result<U, E>
      requires Err?
    {
      Err(error)
    }

    function Extract(): T
      requires Ok?
    {
      value
    }
  }
}
