/** Failure-carrying results: every remote call, the signer and every disposal step
    either succeeds with a value or fails with an error. */
module Wrappers {
  datatype Option<+T> = None | Some(value: T)

  datatype Result<+T, +E> = Ok(value: T) | Err(error: E)
}
