/** Optional values, results and the Python exceptions the engine can raise. */
module Wrappers {

  datatype Option<T> = None | Some(value: T)

  /** The exceptions a step of the engine can end with. */
  datatype Error =
    | KeyError(key: string)
    | ValueError(message: string)
    | TypeError(message: string)
    | AttributeError(name: string)
    | ZeroDivisionError
    | IndexError(index: int)
      /** A value whose JSON type the typed model cannot hold (Python would store it unchecked). */
    | Unrepresentable(key: string)

  datatype Result<T> = Success(value: T) | Failure(error: Error)

  /** The outcome of a statement sequence that returns nothing but may raise. */
  datatype Outcome = Pass | Fail(error: Error)
}
