/** Optional values and results with an error, as plain datatypes. */
module Wrappers {

  /** A value that may be absent: a missing request field, an absent store document. */
  datatype Option<+T> = None | Some(value: T)

  /** The outcome of a request handler: a value, or the error response it sends. */
  datatype Result<+T, +E> = Ok(value: T) | Err(error: E)
}
