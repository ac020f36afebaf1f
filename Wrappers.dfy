/** Small failure-carrying datatypes used across the model. */
module Wrappers {
  datatype Option<+T> = None | Some(value: T)

  /** `Ok` is a normal return; `Err` carries the text of a raised exception. */
  datatype Result<+T, +E> = Ok(value: T) | Err(error: E)
}
