/** Optional values and error returns, standing for Go's `nil` results and `error` values. */
module Results {

  datatype Option<+T> = None | Some(value: T)

  /** A Go `(value, error)` pair: exactly one side is meaningful. */
  datatype Result<+T> = Ok(value: T) | Err(message: string)

  /** A Go function that returns only an `error`. */
  type Status = Result<()>

  const Done: Status := Ok(())
}
