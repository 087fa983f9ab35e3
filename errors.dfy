/** The failures the tour service raises, and the wrappers that carry them. */
module Errors {

  /** A `ResponseStatusException` with status NOT_FOUND, or an `IllegalArgumentException`. */
  datatype Error =
    | NotFound(reason: string)
    | IllegalArgument(message: string)

  /** The value of an operation that either returns or throws. */
  datatype Result<+T> = Success(value: T) | Failure(error: Error)

  /** The value of a `void` operation that may throw. */
  datatype Outcome = Pass | Fail(error: Error)

  datatype Option<+T> = None | Some(value: T)

  const TourNotFound := "Tour not found"
  const TourLogNotFound := "Tour Log not found"
  const TourIdMismatch := "Tour Id of Tour Log doesn't match given Tour Id"
  const InvalidDateFormat := "Invalid date format. Expected: yyyy-MM-dd"
}
