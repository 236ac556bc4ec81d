/** Optional values and the two ways a step of the harness can end: with a value or with
    the message of the error it threw (JavaScript `Error.message`). */
module Wrappers {

  datatype Option<+T> = None | Some(value: T)

  /** The outcome of a step that produces a value or throws. */
  datatype Result<+T> = Success(value: T) | Failure(error: string)

  /** The outcome of a step that produces nothing or throws. */
  datatype Outcome = Ok | Err(error: string)
}
