/** Optional values and error results shared by every component. */
module Wrappers {

  /** A Java `Optional` or a nullable reference. */
  datatype Option<+T> = None | Some(value: T) {
    function GetOr(default: T): T {
      match this
      case Some(v) => v
      case None => default
    }
  }

  /** The two kinds of exception the core raises. */
  datatype Error =
    | TechnicalError(message: string)    // TechnicalException: a configuration error
    | CredentialsError(message: string)  // CredentialsException: malformed credentials

  /** A value, or the exception that was thrown instead of returning it. */
  datatype Result<+R> = Success(value: R) | Failure(error: Error)

  /** The outcome of an operation that returns nothing but may throw. */
  datatype Outcome = Pass | Fail(error: Error)
}
