/** Error values and the optional/fallible results the shifter passes around. */
module Wrappers {

  /** A Go `error` that is not nil: only its identity matters to the model. */
  datatype Error = Error(message: string)

  /** A Go `error` variable: None plays the part of nil. */
  datatype Option<+T> = None | Some(value: T)

  /** A call that either yields a value or fails with an error. */
  datatype Result<+T> = Ok(value: T) | Err(error: Error)
}
