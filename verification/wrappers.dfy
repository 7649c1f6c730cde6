/** Failure-carrying values shared by every module of the model. */
module Wrappers {

  /** A value that may be absent (Python's `None` or a missing key). */
  datatype Option<+T> = None | Some(value: T)

  /** The outcome of a step that may raise: the raised exception is kept as
      its message, which is what `str(e)` yields in the program. */
  datatype Result<+T> = Success(value: T) | Failure(error: string)
}
