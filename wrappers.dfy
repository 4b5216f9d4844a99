/** Failure-carrying values used for the scripts' "found or not found" and
    "passed or thrown" outcomes. */
module Wrappers {

  datatype Option<+T> = None | Some(value: T)

  /** `Err` stands for a thrown `Error` that ends a test scenario. */
  datatype Result<+T, +E> = Ok(value: T) | Err(error: E)
}
