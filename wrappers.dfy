/** Optional values, results, and the reasons for which a modelled operation does not complete. */
module Wrappers {

  datatype Option<+T> = None | Some(value: T)

  /** The reasons an operation of the model fails: each stands for an exception the code raises. */
  datatype Failure =
    | PatternMismatch      // ValueError: the session id does not fully match the pattern
    | TooShort             // ValueError: the session id has fewer than 30 characters
    | TooLong              // ValueError: the session id has more than 40 characters
    | NoneGuard            // ValueError "new_session cannot be None"
    | Forbidden403         // HTTPException 403 "Invalid CSRF Token"
    | MethodNotAllowed405  // HTTPException 405 "Subclass must implement this method"
    | Crash                // AttributeError: an attribute looked up on None or a misspelled attribute

  /** A value, or the reason it could not be produced. */
  datatype Result<+T> = Ok(value: T) | Err(error: Failure)

  /** The outcome of an operation that produces no value. */
  datatype Outcome = Pass | Fail(error: Failure)
}
