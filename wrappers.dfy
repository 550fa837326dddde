/** Option and Result, the two failure-carrying datatypes used across the model. */
module Wrappers {

  datatype Option<+T> = None | Some(value: T)

  /** The outcome of an operation that the source either completes or aborts by raising. */
  datatype Result<+T, +E> = Ok(value: T) | Err(error: E)
}
