/** Shared vocabulary of the collector model: optional values, Go-style
    errors and the fixed-width integers of the Kubernetes API types. */
module Base {

  /** A value that may be nil in Go, or a lookup that may find nothing. */
  datatype Option<+T> = None | Some(value: T)

  /** A value together with a Go `error` return: exactly one of the two is set. */
  datatype Result<+T> = Ok(value: T) | Err(error: Error)

  /** A Go `error`. `Failure` is an error produced by a call the model does not
      look inside; `Wrapped(cause, text)` is what `errors.Wrap(cause, text)` returns. */
  datatype Error = Failure(text: string) | Wrapped(cause: Error, text: string)

  /** The string `Error()` returns. `errors.Wrap` puts its own text first,
      then ": ", then the text of the error it wraps. */
  function Message(e: Error): string
  {
    match e
    case Failure(t) => t
    case Wrapped(c, t) => t + ": " + Message(c)
  }

  type Int32 = x: int | -0x8000_0000 <= x < 0x8000_0000
  type Int64 = x: int | -0x8000_0000_0000_0000 <= x < 0x8000_0000_0000_0000
  type Byte = x: int | 0 <= x < 0x100
  type Bytes = seq<Byte>
}
