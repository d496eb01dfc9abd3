/** Optional values and results shared by every module of the model. */
module Wrappers {

  /** A value that may be absent (Python's `Optional[...] = None`). */
  datatype Option<+T> = None | Some(value: T)

  /** The outcome of a step that can raise: `Err` carries the text of the exception. */
  datatype Result<+T, +E> = Ok(value: T) | Err(error: E)
}
