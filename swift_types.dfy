/** The Swift value shapes the demo uses to report a fallible outcome, and the
    one error it ever raises. */
module SwiftTypes {

  /** Swift's `T?`: a value or `nil`. */
  datatype Option<+T> = None | Some(value: T)

  /** Swift's `Result<Success, Failure>`. */
  datatype Result<+T, +E> = Success(value: T) | Failure(error: E)

  /** The outcome of calling a `throws` function: it either returns normally
      or throws an error, which a `do`/`catch` block receives. */
  datatype Throwing<+T> = Returns(value: T) | Throws(error: Error)

  /** The only URL error code the demo raises. */
  datatype URLErrorCode = BadURL

  /** Swift's `Error` existential, narrowed to the one kind the demo throws. */
  datatype Error = URLError(code: URLErrorCode)

  /** `URLError(.badURL).localizedDescription`: Foundation's text, fixed but
      not interpreted by the model. */
  const ErrDesc: string

  /** `error.localizedDescription`. */
  function LocalizedDescription(e: Error): (d: string)
    ensures d == ErrDesc
  {
    match e
    case URLError(BadURL) => ErrDesc
  }
}
