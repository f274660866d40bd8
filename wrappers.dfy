/**
 * Outcome types shared by the model of the credits generator.
 *
 * The generator has two kinds of failure: a Go panic, which halts the whole
 * run (Run.Panic), and an error value returned to a caller that may carry on
 * (Result.Failure).
 */
module Wrappers {

  /** The outcome of code that may panic; a panic ends the generator. */
  datatype Run<+T> = Ok(value: T) | Panic(message: string)

  /** Go's (value, error) pair. */
  datatype Result<+T> = Success(value: T) | Failure(error: string)

  datatype Option<+T> = None | Some(value: T)
}
