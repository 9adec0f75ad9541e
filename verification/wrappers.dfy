/** Shared value types: optional values, Python exception kinds and results. */
module Wrappers {

  datatype Option<+T> = None | Some(value: T)

  /** The kind of exception a Python operation raises; messages are not modelled. */
  datatype PyError =
    | RuntimeError
    | AttributeError
    | LookupError
    | KeyError
    | IndexError
    | TypeError
    | ValueError
    | ZeroDivisionError
    | GenericException

  /** Either the value an operation returns or the exception it raises. */
  datatype Result<+T> = Success(value: T) | Failure(error: PyError)

  /** An operation that returns nothing of interest, or raises. */
  datatype Outcome = Pass | Fail(error: PyError)
}
