/** Optional values and fallible results, shared by every stage of the pipeline. */
module Outcomes {

  /** Rust's `Option`: a value that may be absent. */
  datatype Option<+T> = None | Some(value: T)

  /** Rust's `Result`: a value, or the error that stopped its computation. */
  datatype Result<+T, +E> = Ok(value: T) | Err(error: E)
}
