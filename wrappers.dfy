/** Option and Result, the failure-carrying wrappers the model uses in place of
    Swift's `Optional` and of the source's crashing casts. */
module Wrappers {

  datatype Option<+T> = None | Some(value: T)

  datatype Result<+R, +E> = Ok(value: R) | Err(error: E)
}
