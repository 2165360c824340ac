/** The outcome of an operation that the Python code can raise an exception from. */
module Results {

  /** Either a value or the error the Python code raises instead. */
  datatype Result<+T, +E> = Ok(value: T) | Err(error: E)

  /** A value that Python holds as `None` or an object. */
  datatype Option<+T> = None | Some(value: T)
}
