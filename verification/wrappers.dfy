/** Small wrapper datatypes shared by every module of the model. */
module Wrappers {

  /** A value that may be absent (Python's `None`, or a missing attribute). */
  datatype Option<+T> = None | Some(value: T)

  /**
   * An exception, by the only distinction the handlers' `except` clauses
   * make: an `httpx.RequestError` (or a subclass), or any other `Exception`.
   * `message` is its `str(e)`.
   */
  datatype Error = RequestError(message: string) | OtherError(message: string)

  /** The outcome of a step that can raise: either it produced a value, or it raised `error`. */
  datatype Attempt<+T> = Done(value: T) | Raised(error: Error)
}
