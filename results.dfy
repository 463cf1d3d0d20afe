/** The two wrappers the model uses for Python's `None` and for exceptions
    that end an operation. */
module Results {

  datatype Option<T> = None | Some(value: T)

  /** `Err` carries what the raised exception would report. */
  datatype Result<T, E> = Ok(value: T) | Err(error: E)
}
