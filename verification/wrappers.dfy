/** Option and Result, the two failure-carrying wrappers used throughout the model. */
module Wrappers {

  /** `None` stands for JavaScript's `undefined` wherever a value may be absent. */
  datatype Option<+T> = None | Some(value: T)

  /** `Failure` stands for a thrown exception. */
  datatype Result<+T, +E> = Success(value: T) | Failure(error: E)
}
