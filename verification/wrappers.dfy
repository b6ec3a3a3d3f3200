/** Failure-compatible wrappers shared by the whole model: `Option` stands for
    JavaScript's null/undefined, `Result` for a validator's verdict or an
    exception thrown part-way through a handler. */
module Wrappers {

  datatype Option<+T> = None | Some(value: T)

  datatype Result<+T, +E> = Ok(value: T) | Err(error: E)
}
