/** Option and Result, used wherever the engine returns None or raises. */
module Wrappers {
  datatype Option<T> = None | Some(value: T)
  {
    predicate IsSome() { Some? }

    function GetOr(default: T): (r: T)
      ensures Some? ==> r == value
      ensures None? ==> r == default
    {
      match this
      case Some(v) => v
      case None => default
    }
  }

  /** The exceptions the modelled code raises (Python exception classes). */
  datatype Error = ValueError(msg: string) | IndexError(msg: string) | KeyError(msg: string) | TypeError(msg: string)
    | ZeroDivisionError(msg: string) | RecursionError(msg: string) | AttributeError(msg: string)

  datatype Result<T> = Ok(value: T) | Err(error: Error)
}
