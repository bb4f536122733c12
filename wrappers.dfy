/** Option and Result datatypes shared by the ride model. */
module Wrappers {

  /** A value that may be absent: an omitted request field, an unset schema path. */
  datatype Option<+T> = None | Some(value: T)

  /** The outcome of a route handler: a response body or an error. */
  datatype Result<+T, +E> = Ok(value: T) | Err(error: E)
}
