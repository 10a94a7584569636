/** Failure-compatible wrappers shared by the rest of the model. */
module Wrappers {

  datatype Option<+T> = None | Some(value: T)

  /** `Err` carries what the source would raise instead of returning. */
  datatype Result<+T, +E> = Ok(value: T) | Err(error: E)
}
