/** The two outcome shapes every component of the model shares. */
module Prelude {

  datatype Option<+T> = None | Some(value: T)

  /** The source's (value, error) returns: exactly one of the two is meaningful. */
  datatype Result<+T, +E> = Ok(value: T) | Err(error: E)
}
