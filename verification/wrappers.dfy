/** Failure-carrying datatypes shared by the model. */
module Wrappers {

  /** A value that may be missing. */
  datatype Option<+T> = None | Some(value: T)

  /** The result of a call that may throw: a value, or the message of the thrown error. */
  datatype Outcome<+T> = Ok(value: T) | Thrown(message: string)
}
