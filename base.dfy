/** Small wrapper datatypes shared by every module of the model. */
module Base {

  /** A value that may be absent. */
  datatype Option<+T> = None | Some(value: T)

  /** The value of an operation, or the reason it failed. */
  datatype Result<+T, +E> = Ok(value: T) | Err(error: E)
}
