/** Option and Result, and the exceptions the modelled Python code raises. */
module Wrappers {

  datatype Option<+T> = None | Some(value: T)

  /** A value or the exception that replaced it; usable with `:-`. */
  datatype Result<+T, +E> = Ok(value: T) | Err(error: E) {
    predicate IsFailure() { Err? }

    function PropagateFailure<U>(): Result<U, E>
      requires Err?
    {
      Err(error)
    }

    function Extract(): T
      requires Ok?
    {
      value
    }
  }

  /** Python exceptions raised by the core, with the message or key they carry. */
  datatype Error =
    | ValueError(message: string)
    | KeyError(key: string)
    | RuntimeError(message: string)
    | ZeroDivisionError
}
