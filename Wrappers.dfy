/** Option and Result, and the Python exceptions the service distinguishes. */
module Wrappers {

  datatype Option<+T> = None | Some(value: T)

  datatype Result<+T, +E> = Ok(value: T) | Err(error: E)

  /** The exception classes that matter to the service: the web layer maps
      ValueError (and its subclasses, such as scikit-learn's NotFittedError)
      to status 400 and every other class to status 500. */
  datatype ExceptionKind = ValueError | KeyError | TypeError | ZeroDivisionError | OSError

  /** A raised exception: its class and `str(e)`. */
  datatype Exception = Exception(kind: ExceptionKind, message: string)
}
