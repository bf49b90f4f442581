/** Option and Result, used for JavaScript `undefined` lookups and thrown errors. */
module Wrappers {
  datatype Option<T> = None | Some(value: T)

  /** A computation that either returns a value or throws an `Error` with a message. */
  datatype Result<T> = Ok(value: T) | Err(error: string)
}
