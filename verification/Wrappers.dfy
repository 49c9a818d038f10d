/** The option and result types the modules share. */
module Wrappers {
  datatype Option<+T> = None | Some(value: T)

  datatype Result<+T> = Success(value: T) | Failure(error: string)
}
