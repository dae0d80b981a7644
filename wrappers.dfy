/** Optional values and results with an error, shared by the dataflow model. */
module Wrappers {

  /** A value that may be absent: a nullable parameter slot, or an exception that may not have been thrown. */
  datatype Option<+T> = None | Some(value: T)

  /** Either a value or the error that prevented it. */
  datatype Result<+T, +E> = Ok(value: T) | Err(error: E)
}
