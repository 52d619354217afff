/** Failure-carrying values shared by every module of the catalog model.
    Go returns `(value, error)` pairs and `error` values; here a call either
    succeeds with a value or fails with the text of its error. */
module Results {

  datatype Option<+T> = None | Some(value: T)

  /** The `(T, error)` pair of a Go call: `Ok` when the error is nil. */
  datatype Result<+T> = Ok(value: T) | Err(error: string)

  /** A Go call that returns only an `error`. */
  datatype Check = Pass | Fail(error: string)

  /** `fmt.Errorf("<context>: %w", err)` as text. */
  function Wrap(context: string, err: string): string
  {
    context + ": " + err
  }
}
