/** Option and Result, for values Python leaves as `None` and for calls that raise. */
module Wrappers {

  datatype Option<+T> = None | Some(value: T)

  /** Either a value or the message of the exception the computation raised. */
  datatype Result<+T> = Success(value: T) | Failure(error: string)
}
