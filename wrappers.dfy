/** Option for values that may be absent, and Result for a computation that
    either yields a value or stops with an exception's message. */
module Wrappers {

  datatype Option<+T> = None | Some(value: T)

  datatype Result<+T> = Ok(value: T) | Err(message: string)
}
