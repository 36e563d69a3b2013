/** Option and Result values standing in for Python's `None` returns and
    raised exceptions. */
module Results {

  datatype Option<+T> = None | Some(value: T)

  /** `Err` carries the message of the exception the source raises. */
  datatype Result<+T> = Ok(value: T) | Err(message: string)
}
