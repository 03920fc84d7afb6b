/** Failure-carrying values used for the pipeline's error paths. */
module Wrappers {

  /** An optional value: a request field that may be absent, a fault that may not occur. */
  datatype Option<+T> = None | Some(value: T)

  /** The outcome of an operation that either yields a value or raises an error. */
  datatype Result<+T, +E> = Ok(value: T) | Err(error: E)
}
