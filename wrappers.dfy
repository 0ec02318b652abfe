/** Optional values and results shared by the other modules. */
module Wrappers {

  /** A value that may be absent, as a Python `None`-able field. */
  datatype Option<+T> = None | Some(value: T)

  /** The outcome of an operation that may raise. */
  datatype Result<+T, +E> = Success(value: T) | Failure(error: E)
}
