/** Optional values and error-carrying results shared by the bills modules. */
module Results {

  /** A value that may be absent: Python's `Optional[...]`, `None` included. */
  datatype Option<+T> = None | Some(value: T)

  /** The outcome of a handler: a response body, or the error it raises. */
  datatype Result<+T, +E> = Ok(value: T) | Err(error: E)
}
