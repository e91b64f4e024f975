/** Optional values and handler outcomes shared by the whole model. */
module Wrappers {

  /** A value that may be absent: a missing query parameter, a missing form field, a failed search. */
  datatype Option<+T> = None | Some(value: T)

  /** The outcome of a request handler: a value, or the HTTP error it answers with. */
  datatype Result<+T, +E> = Success(value: T) | Failure(error: E)
}
