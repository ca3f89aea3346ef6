/** Failure-carrying values: the model's replacement for C# null and for thrown exceptions. */
module Wrappers {

  datatype Option<+T> = None | Some(value: T)

  /** The outcome of an operation that either produces a value or throws. */
  datatype Result<+T, +E> = Ok(value: T) | Err(error: E) {

    predicate IsFailure() {
      Err?
    }

    function PropagateFailure<U>(): Result<U, E>
      requires Err?
    {
      Err(error)
    }

    function Extract(): T
      requires Ok?
    {
      value
    }
  }
}
