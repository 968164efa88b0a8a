/** Option and Result, as the crate uses them (std Option, std/anyhow Result). */
module Wrappers {

  datatype Option<+T> = None | Some(value: T)

  datatype Result<+T, +E> = Ok(value: T) | Err(error: E)

  /** `anyhow::Result<T>`: an error is known to its callers only by its message. */
  type Fallible<T> = Result<T, string>
}
