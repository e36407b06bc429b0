/** Optional values and the outcome of a step that may raise one of Python's exceptions. */
module Wrappers {

  datatype Option<T> = None | Some(value: T)

  /** The exceptions the modelled Python code can raise on malformed input. */
  datatype Error =
    | IndexError  // a list or string index beyond its end
    | ValueError  // text that float() cannot convert

  datatype Result<T> = Ok(value: T) | Err(error: Error) {

    predicate IsFailure() {
      Err?
    }

    function PropagateFailure<U>(): Result<U>
      requires Err?
    {
      Err(error)
    }

    function Extract(): T
      requires Ok?
    {
      value
    }
  }
}
