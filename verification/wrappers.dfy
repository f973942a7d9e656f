/** Optional values and fallible results, standing in for Rust's `Option` and `Result`. */
module Wrappers {

  datatype Option<+T> = None | Some(value: T)

  /** A result whose error carries the message the source attaches to its `io::Error`. */
  datatype Result<+T> = Ok(value: T) | Err(message: string)
}
