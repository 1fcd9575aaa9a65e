/** Option and Result types shared by the model. */
module Wrappers {

  /** A value that may be absent: Python's `None` versus a present value. */
  datatype Option<+T> = None | Some(value: T)

  /** A computation that returns a value or raises the named Python exception. */
  datatype Result<+T> = Ok(value: T) | Raises(error: PyError)

  /** The Python exceptions that the modelled code lets escape. */
  datatype PyError = ValueError | KeyError | IndexError | TypeError | AttributeError | ZeroDivisionError | CanOperationError
}
