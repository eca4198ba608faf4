/** Failure-carrying values shared by the modules of this model. */
module Results {

  datatype Option<+T> = None | Some(value: T)

  /** A value or the error that replaced it (Go's `(value, err)` pairs). */
  datatype Result<+T, +E> = Ok(value: T) | Err(error: E)
}
