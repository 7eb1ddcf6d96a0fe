/** Failure-carrying wrappers shared by every module of the model. */
module Results {

  /** A value that may be absent (JavaScript's `undefined` where a lookup finds nothing). */
  datatype Option<+T> = None | Some(value: T)

  /** The exceptions the modelled code can raise synchronously. */
  datatype Exception =
    /** `new Error(message)` thrown by the constructor's own guard. */
    | PlainError(message: string)
    /** A `TypeError` raised by the JavaScript runtime or by a library call. */
    | TypeError

  /** Either the value a call returns, or the exception it throws. */
  datatype Result<+T> = Ok(value: T) | Throw(error: Exception)
}
