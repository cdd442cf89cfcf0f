/** Failure-carrying values shared by the settings modules. */
module Results {

  /** The two exception classes the settings setters raise. */
  datatype ErrorKind = ValueError | TypeError

  /** A value that may be absent (Python's `None`). */
  datatype Option<+T> = None | Some(value: T)

  /** The outcome of a setter that validates before it writes: either the
      updated record or the exception raised, in which case nothing changed. */
  datatype Result<+T> = Ok(value: T) | Err(error: ErrorKind)
}
