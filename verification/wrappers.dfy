/** Option and Result: the model's stand-ins for Java's null references, Optional values
    and thrown exceptions. */
module Wrappers {

  datatype Option<+T> = None | Some(value: T)

  /** A call that either returns a value or throws; the error carries the exception message. */
  datatype Result<+T, +E> = Success(value: T) | Failure(error: E)
}
