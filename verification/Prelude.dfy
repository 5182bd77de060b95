/** Shared vocabulary of the model: optional values and results with an error. */
module Prelude {
  /** An instant; the source's clocks are compared and shifted, nothing else. */
  type Time = int

  /** An opaque digest: only its length and equality matter. */
  type Digest = string

  datatype Option<+T> = None | Some(value: T)

  datatype Result<+T, +E> = Ok(value: T) | Err(error: E)
}
