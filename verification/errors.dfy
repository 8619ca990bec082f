/** Go's `error` values as they surface from the pipe launcher, and the
    Option/Result carriers the model uses for Go's `(value, error)` returns. */
module Errors {

  datatype Option<+T> = None | Some(value: T)

  /** A value or the error that replaced it. */
  datatype Result<+T> = Success(value: T) | Failure(error: Err)

  /** The errors this core produces or passes through.
      `Wrapped(context, cause)` is `fmt.Errorf("<context>: %w", cause)`. */
  datatype Err =
    | ErrClosed                          // os.ErrClosed: I/O on a file already closed
    | EOF                                // io.EOF: the peer closed its end of the pipe
    | AlreadyLaunched                    // ErrAlreadyLaunched
    | OsError(code: int)                 // any other failure the operating system reports
    | Wrapped(context: string, cause: Err)
}
