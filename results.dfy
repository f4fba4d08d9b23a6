/** Option and Result values shared by the modules of this model. */
module Results {

  /** A value that may be absent: Java's `null` or an empty `Optional`. */
  datatype Option<+T> = None | Some(value: T)

  /** The outcome of an operation that either returns a value or throws. */
  datatype Result<+T, +E> = Ok(value: T) | Err(error: E)
}
