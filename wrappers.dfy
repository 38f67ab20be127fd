/** Optional values and request outcomes shared by every component model. */
module Wrappers {

  /** A value that may be absent: a TypeScript `T | undefined`, a Python `None`. */
  datatype Option<T> = None | Some(value: T)

  /** The outcome of a request to the server: its payload, or the error's message. */
  datatype Result<T> = Ok(value: T) | Err(message: string)
}
