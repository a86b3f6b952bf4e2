/** Error values and optional results shared by the modules of this model. */
module Base {

  /** A Go `error` value; only its identity matters to the model. */
  datatype Error = Error(message: string)

  /** A Go value that may be nil (a `*T`, or an `error` that may be nil). */
  datatype Option<+T> = None | Some(value: T)

  /** The `(value, error)` pair a Go call returns, with exactly one side meaningful. */
  datatype Result<+T> = Ok(value: T) | Err(error: Error)
}
