/** Option and Result, used for the driver's partial parses and error returns. */
module Wrappers {

  datatype Option<+T> = None | Some(value: T)

  /** A Go `error` return: `Pass` stands for a nil error. */
  datatype Outcome<+E> = Pass | Fail(error: E)

  /** A Go `(value, error)` pair. */
  datatype Result<+T, +E> = Success(value: T) | Failure(error: E)
}
