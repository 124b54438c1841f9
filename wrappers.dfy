/** Option and Result: absent values and the error path of the services. */
module Wrappers {

  datatype Option<+T> = None | Some(value: T)

  /** The outcome of a service call that may throw: the value it returns,
      or the message of the exception it raises. */
  datatype Result<+R> = Success(value: R) | Failure(error: string)
}
