/** Optional values and results with an error message, used wherever the
    source returns `null`/`undefined` or throws. */
module Wrappers {

  datatype Option<+T> = None | Some(value: T)

  /** A computation that either produced a value or failed with the message
      of the error it threw (or returned). */
  datatype Result<+T> = Ok(value: T) | Err(message: string)
}
