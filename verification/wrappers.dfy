/** Failure-compatible wrappers shared by the model: an explicit "absent" value
    in place of PHP's `null`, and a result that carries either a value or the
    message of the exception the source would throw. */
module Wrappers {

  datatype Option<+T> = None | Some(value: T)

  datatype Result<+T> = Success(value: T) | Failure(message: string)
}
