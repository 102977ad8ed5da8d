/** Failure-carrying result types shared by the quote model. */
module Wrappers {

  /** A value that may be absent: a dictionary lookup that can miss, a parse that can fail. */
  datatype Option<+T> = None | Some(value: T)

  /** Either a value or the reason it could not be produced. */
  datatype Result<+R, +E> = Success(value: R) | Failure(error: E)
}
