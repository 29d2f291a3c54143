/** Small failure-carrying datatypes shared by the other modules. */
module Common {

  /** A value that may be absent. */
  datatype Option<+T> = None | Some(value: T)

  /** Either a value or an error description. */
  datatype Result<+T, +E> = Ok(value: T) | Err(error: E)
}
