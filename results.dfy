/** Option and Result, the two wrappers the model uses for JavaScript's
    null/undefined values and for thrown errors. */
module Results {

  datatype Option<+T> = None | Some(value: T)

  /** A call that either returns a value or throws an error. */
  datatype Result<+T, +E> = Success(value: T) | Failure(error: E)
}
