/** Optional values and success/failure outcomes shared by every module. */
module Results {

  /** A value that may be absent, as a key that may be missing from the session state. */
  datatype Option<+T> = None | Some(value: T)

  /** The outcome of a calculation that may raise an error instead of returning a value. */
  datatype Result<+T, +E> = Success(value: T) | Failure(error: E)
}
