/** Option and Result, and the Python exceptions the scheduler raises or runs into. */
module Wrappers {

  datatype Option<+T> = None | Some(value: T)

  /** The exception kinds that the modelled Python code raises explicitly (ValueError,
      AssertionError) or runs into (KeyError, IndexError, TypeError, ...). */
  datatype Error =
    | ValueError(msg: string)
    | AssertionError(msg: string)
    | KeyError
    | IndexError
    | TypeError
    | AttributeError
    | UnboundLocalError
    | StopIteration

  datatype Result<+T> = Ok(value: T) | Err(error: Error) {
    predicate IsFailure() { Err? }
    function PropagateFailure<U>(): Result<U>
      requires Err?
    {
      Err(error)
    }
    function Extract(): T
      requires Ok?
    {
      value
    }
  }
}
