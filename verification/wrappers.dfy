/** The two shapes the fare model returns: an optional input and a computation
    that either yields a value or stops with an error. */
module Wrappers {

  /** An input that may be missing, as a base fare that is None or NaN. */
  datatype Option<+T> = None | Some(value: T)

  /** A computed value, or the error that stopped the computation. */
  datatype Result<+R, +E> = Success(value: R) | Failure(error: E)
}
