/** Failure-carrying values used across the model: Option for the `None` that a failed
    present-position read returns, Result for the exceptions raised during setup. */
module Wrappers {

  datatype Option<+T> = None | Some(value: T)

  datatype Result<+R, +E> = Success(value: R) | Failure(error: E)
}
