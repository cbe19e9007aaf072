/** Optional values and results, for Go's nil-able errors and the library calls that can fail. */
module Results {

  /** A value that may be absent; `None` plays the part of Go's nil error. */
  datatype Option<+T> = None | Some(value: T)

  /** The outcome of a call that either yields a value or fails with an error. */
  datatype Result<+T, +E> = Success(value: T) | Failure(error: E)
}
