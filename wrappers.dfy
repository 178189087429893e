/** Failure-carrying values shared by the other modules. */
module Wrappers {

  /** A value that may be absent: `None` stands for Python's `None`. */
  datatype Option<+T> = None | Some(value: T)

  /** The outcome of a handler: a reply, or the error it raises. */
  datatype Result<+R, +E> = Success(value: R) | Failure(error: E)
}
