/** Failure-compatible wrappers used across the model: `Option` for a value
    that may be absent (JavaScript `null`/`undefined`) and `Result` for an
    operation that either succeeds or throws an `Error` with a message. */
module Wrappers {

  datatype Option<+T> = None | Some(value: T)

  datatype Result<+T> = Success(value: T) | Failure(message: string)
}
