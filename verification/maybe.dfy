/** Optional values and string-carrying errors, shared by the backend and frontend models. */
module Maybe {

  /** A value that may be absent: SQL `rows[0]` on an empty result, JavaScript `undefined`/`null`. */
  datatype Option<+T> = None | Some(value: T)

  /** The outcome of an operation that either returns a value or throws an `Error` with a message. */
  datatype Result<+T> = Ok(value: T) | Err(message: string)
}
