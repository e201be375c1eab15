/** Option and Result values used throughout the model. */
module Wrappers {

  datatype Option<+T> = None | Some(value: T)

  /** A computation that either produced a value or failed with the text Python's `str(e)` gives. */
  datatype Result<+T> = Ok(value: T) | Err(error: string)
}
