/** Small failure-carrying datatypes shared by the whole model. */
module Wrappers {

  /** A value that may be absent (Python's `None`). */
  datatype Option<+T> = None | Some(value: T)

  /** Either a value or the message of the exception that was raised instead. */
  datatype Result<+R> = Success(value: R) | Failure(error: string)

  /** The outcome of a call into a library that returns nothing useful but may raise. */
  datatype Step = Ok | Raises(cause: string)
}
