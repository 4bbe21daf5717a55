/** Failure-carrying wrappers shared by the client model. */
module Results {

  /** A value that may be absent: Go's nil pointer or nil reader. */
  datatype Option<+T> = None | Some(value: T)

  /** A value or the Go `error` that was returned instead of it. */
  datatype Result<+T, +E> = Success(value: T) | Failure(error: E)
}
