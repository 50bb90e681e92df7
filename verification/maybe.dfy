/** Optional values and success/failure results, used where the hook has
    an optional field (`loopInterval?`, `pattern?`, `bpm?`) or an early
    return on a validation error. */
module Maybe {

  /** A value that may be absent (a TypeScript optional field). */
  datatype Option<+T> = None | Some(value: T)

  /** The outcome of an operation that can be refused. */
  datatype Result<+T, +E> = Ok(value: T) | Err(error: E)
}
