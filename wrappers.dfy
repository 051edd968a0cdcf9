/**
 * Option and Result, with the Python exception kinds the modelled code
 * raises on its error paths.
 */
module Wrappers {

  datatype Option<T> = None | Some(value: T)
  {
    predicate IsSome() { Some? }
  }

  /** The exception a Python operation raises, by class. */
  datatype Error =
    | AttributeError(msg: string)
    | RuntimeError(msg: string)
    | KeyError(key: string)
    | ValueError(msg: string)
    | TypeError(msg: string)
    | IndexError
    | ZeroDivisionError
    | NotImplementedError
    | FileExistsError(path: string)
    | FileNotFoundError(path: string)
    | ImportError(modname: string)
    | UnboundLocalError(name: string)

  datatype Result<T> = Ok(value: T) | Err(error: Error)
  {
    predicate IsFailure() { Err? }
    function PropagateFailure<U>(): Result<U>
      requires Err?
    {
      Err(error)
    }
    function Extract(): T
      requires Ok?
    {
      value
    }
  }
}
