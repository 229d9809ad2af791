/** Failure-carrying results and the Python exceptions the wrapper layer raises. */
module Wrappers {

  datatype Option<+T> = None | Some(value: T)

  /** The exception classes raised by the wrapper layer (or by NumPy/VTK calls it makes). */
  datatype PyError = TypeError | ValueError | IndexError | AttributeError

  /** A value, or the exception that was raised instead of producing it. */
  datatype Result<+T> = Ok(value: T) | Err(error: PyError)

  /** The outcome of a call whose Python result is `None`: it returned, or it raised. */
  datatype Outcome = Pass | Fail(error: PyError)
}
