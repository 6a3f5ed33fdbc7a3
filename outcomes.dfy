/** Optional values and results with an error, as the Python code uses `None` and exceptions. */
module Outcomes {

  /** `None` or a value, the Python `Optional`. */
  datatype Option<+T> = None | Some(value: T)

  /** The exceptions a modelled operation can raise. */
  datatype Error = ZeroDivisionError

  /** A value, or the exception that was raised instead of computing it. */
  datatype Result<+T> = Success(value: T) | Failure(error: Error)
}
