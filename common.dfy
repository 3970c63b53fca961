/** Small failure-carrying datatypes shared by the frontend and backend models. */
module Common {

  /** A value that may be absent (JavaScript `null`/`undefined`, Python `None`). */
  datatype Option<+T> = None | Some(value: T)

  /** The outcome of an operation that can raise: a value, or the error it raised. */
  datatype Result<+T, +E> = Ok(value: T) | Err(error: E)
}
