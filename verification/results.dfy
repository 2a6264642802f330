/**
 * The two failure-carrying datatypes used throughout the model: `Option` for a
 * value that may be absent (an unplaced robot, an unparsable token) and
 * `Result` for an outcome that is either a value or an error description.
 */
module Results {

  /** A value that may be missing; the model's counterpart of `undefined`. */
  datatype Option<+T> = None | Some(value: T)

  /** Either a value or the reason there is none. */
  datatype Result<+T, +E> = Ok(value: T) | Err(error: E)
}
