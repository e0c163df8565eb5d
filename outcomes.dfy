/** Option, Result and Outcome values for the drivers' error paths: what the Python
    source raises is returned here as a failure value carrying the error. */
module Outcomes {

  datatype Option<+T> = None | Some(value: T)

  datatype Result<+T, +E> = Ok(value: T) | Err(error: E)

  /** The result of an operation that returns nothing on success. */
  datatype Outcome<+E> = Pass | Fail(error: E)
}
