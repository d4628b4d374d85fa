/** Option, Result and Outcome: the error-signalling types that replace the
    source's exceptions and process exits. */
module Wrappers {

  datatype Option<+T> = None | Some(value: T)

  datatype Result<+T, +E> = Ok(value: T) | Err(error: E)

  /** An operation that either completes or stops with an error. */
  datatype Outcome<+E> = Pass | Fail(error: E)
}
