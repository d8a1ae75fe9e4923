/** Small value types shared by the modules of the model. */
module Outcomes {

  /** A value that may be absent: Python's `None` versus a present value. */
  datatype Option<+T> = None | Some(value: T)

  /** The outcome of a step that either produces a value or raises an exception. */
  datatype Result<+T, +E> = Success(value: T) | Failure(error: E)

  /** One byte of a file or an HTTP response body. */
  newtype byte = b: int | 0 <= b < 256
}
