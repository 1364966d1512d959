/** Option and Result: the absent value and the thrown error of the client, as data. */
module Wrappers {

  datatype Option<+T> = None | Some(value: T)

  /** `Failure` stands for an exception that the client throws synchronously. */
  datatype Result<+T, +E> = Success(value: T) | Failure(error: E)
}
