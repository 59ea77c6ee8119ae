/** Result shapes shared by every component of the model. */
module Wrappers {
  datatype Option<+T> = None | Some(value: T)

  datatype Result<+T, +E> = Ok(value: T) | Err(error: E)

  /** One reading of the single clock all processes share, in milliseconds. */
  type Time = int
}
