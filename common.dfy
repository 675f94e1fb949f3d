/** Optional values and results with an error, shared by every module of the model. */
module Common {
  /** A Go pointer or slice that may be nil, a map lookup that may miss. */
  datatype Option<T> = None | Some(value: T)

  /** A Go `(value, error)` pair: exactly one of the two is meaningful. */
  datatype Result<T, E> = Ok(value: T) | Err(error: E)
}
