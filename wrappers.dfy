/** Option and Result: a possibly-null reference and a call that either returns or throws. */
module Wrappers {

  /** A reference that may be null. */
  datatype Option<+T> = None | Some(value: T)

  /** The outcome of a call: a returned value or the kind of exception it raised. */
  datatype Result<+T, +E> = Ok(value: T) | Err(error: E)
}
