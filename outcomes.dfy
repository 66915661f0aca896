/** Optional values and results that may carry a thrown error. */
module Outcomes {

  /** A value that may be absent (`undefined` in the component). */
  datatype Option<+T> = None | Some(value: T)

  /** The outcome of a computation that either yields a value or throws. */
  datatype Result<+T, +E> = Success(value: T) | Failure(error: E)
}
