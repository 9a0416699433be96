/** Optional values and results with an error, shared by every module of the model. */
module Results {

  /** A value that may be missing (`undefined` in the application). */
  datatype Option<+T> = None | Some(value: T)

  /** The outcome of a step that can throw: a value, or the error it threw. */
  datatype Result<+T, +E> = Ok(value: T) | Err(error: E)
}
