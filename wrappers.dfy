/** Option and Result, the wrappers the rest of the model returns. */
module Wrappers {

  datatype Option<+T> = None | Some(value: T)

  /** A Python call either returns a value or raises; Err carries what it raised. */
  datatype Result<+T, +E> = Ok(value: T) | Err(error: E)
}
