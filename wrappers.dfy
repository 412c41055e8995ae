/** The optional-value and result datatypes shared by the model. */
module Wrappers {

  /** A value that may be absent (Python's `Optional`). */
  datatype Option<+T> = None | Some(value: T)

  /** A value, or the reason it could not be produced (Python raising). */
  datatype Result<+T, +E> = Success(value: T) | Failure(error: E)
}
