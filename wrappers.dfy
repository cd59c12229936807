/** Failure-carrying results used across the model. Every `CodegenError`
    or other exception Jenna raises becomes an `Err` or a `Fail`
    carrying the message Jenna passes to the exception. */
module Wrappers {

  datatype Option<+T> = None | Some(value: T)

  /** The outcome of a computation that either yields a value or raises. */
  datatype Result<+T> = Ok(value: T) | Err(message: string)
  {
    predicate IsFailure() { Err? }

    function PropagateFailure<U>(): Result<U>
      requires Err?
    {
      Err(message)
    }

    function Extract(): T
      requires Ok?
    {
      value
    }
  }

  /** The outcome of a mutator that returns nothing or raises. */
  datatype Outcome = Pass | Fail(message: string)
}
