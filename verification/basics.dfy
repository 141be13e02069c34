/** Failure-carrying values shared by the model of the timestamping tool.
    A JavaScript promise that rejects with an `Error` is modelled as a
    `Failure`/`Err` carrying the error's `message`. */
module Basics {

  datatype Option<+T> = None | Some(value: T)

  /** The settled value of an asynchronous step that yields a value. */
  datatype Result<+T> = Success(value: T) | Failure(message: string)

  /** The settled value of an asynchronous step that yields nothing. */
  datatype Outcome = Ok | Err(message: string)
}
