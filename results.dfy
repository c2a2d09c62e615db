/** Error kinds and the result wrappers every registry call returns. */
module Results {

  /** The failures a registry call reports to its caller. */
  datatype Error =
    | NotFound        // the row is absent, or its decoded primary id is empty
    | Serialization   // a JSON or attribute-map encoding failed, or a payload does not decode
    | Transaction     // the store rejected a transactional write
    | Unavailable     // the store did not answer a request

  datatype Option<+T> = None | Some(value: T)

  /** The value of a lookup, or the error that stopped it. */
  datatype Result<+T> = Ok(value: T) | Err(error: Error)

  /** The outcome of a call that only changes the store (Go's bare `error`). */
  datatype Outcome = Pass | Fail(error: Error)
}
