/** Small failure-carrying wrappers shared by every module of the model. */
module Wrappers {

  /** A possibly absent value: a nil pointer or interface in the source. */
  datatype Option<+T> = None | Some(value: T)

  /** A value or the error that took its place. */
  datatype Result<+T, +E> = Success(value: T) | Failure(error: E)

  /** An error value returned by the substrate or by a collaborator; only its text is kept. */
  datatype Error = Error(message: string)
}
