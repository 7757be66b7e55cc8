/** Option and Result, the two failure-compatible wrappers the model uses.
    A JavaScript `throw new Error(msg)` becomes `Err(msg)`. */
module Wrappers {

  datatype Option<+T> = None | Some(value: T)

  datatype Result<+T> = Ok(value: T) | Err(message: string) {

    predicate IsFailure() {
      Err?
    }

    function PropagateFailure<U>(): Result<U>
      requires Err?
    {
      Err(message)
    }

    function Extract(): T
      requires Ok?
    {
      value
    }
  }

  /** The outcome of a step that returns nothing but may throw. */
  datatype Status = Pass | Fail(message: string) {

    predicate IsFailure() {
      Fail?
    }

    function PropagateFailure<U>(): Result<U>
      requires Fail?
    {
      Err(message)
    }
  }
}
