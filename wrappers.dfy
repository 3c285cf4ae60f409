/** Optional values and results with an error message, shared by the other modules. */
module Wrappers {

  /** A value that may be absent, as a JavaScript property that may be `undefined`. */
  datatype Option<+T> = None | Some(value: T)

  /** The outcome of an external call: a value, or the message of the error it threw. */
  datatype Result<+T> = Ok(value: T) | Err(error: string)
}
