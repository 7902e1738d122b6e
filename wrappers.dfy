/** Optional values and results shared by the two halves of the model. */
module Wrappers {

  /** A value that may be absent: a reaction time when no key was pressed. */
  datatype Option<+T> = None | Some(value: T)

  /** The outcome of an operation that raises in the source. */
  datatype Result<+T, +E> = Success(value: T) | Failure(error: E)
}
