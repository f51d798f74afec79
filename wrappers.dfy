/** Option and Result, used wherever the source has a nullable value or an error path. */
module Wrappers {

  datatype Option<+T> = None | Some(value: T)

  /** The outcome of an operation that may throw; `Err` carries the error's message. */
  datatype Result<+T> = Ok(value: T) | Err(message: string)
}
