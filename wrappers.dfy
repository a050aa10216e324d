/** Shared Option and Result datatypes. */
module Wrappers {

  /** A value that may be absent: a missing request field, or a JSON text the parser refused. */
  datatype Option<+T> = None | Some(value: T)

  /** The outcome of a step that can stop a handler early with an error value. */
  datatype Result<+R, +E> = Success(value: R) | Failure(error: E)
}
