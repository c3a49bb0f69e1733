/** Option and Result values shared by the modules of this model. */
module Wrappers {

  /** Python's `Optional[...]` (None or a value). */
  datatype Option<+T> = None | Some(value: T)

  /** Rust's `Result<T, E>`. */
  datatype Result<+T, +E> = Ok(value: T) | Err(error: E)
}
