/** Failure-compatible wrappers shared by every module of the model. */
module Base {

  /** A value that may be absent: JavaScript's `null`/`undefined`, Python's `None`. */
  datatype Option<+T> = None | Some(value: T)

  /** The result of a backend endpoint: a response body, or an HTTP error raised by the handler. */
  datatype Result<+T, +E> = Ok(value: T) | Err(error: E)

  /** How an awaited frontend API call resumed: with the response payload, or by throwing. */
  datatype Outcome<+T> = Succeeded(payload: T) | Failed
}
