/**
 * Exceptions that cross the boundary of the modelled functions, and the outcome of
 * one call: either the value it returned or the exception it raised.
 */
module Errors {

  /** An exception raised by the OpenAI client library or by the service code. */
  datatype Error =
    | RateLimit                    // openai.RateLimitError (HTTP 429)
    | Timeout                      // openai.APITimeoutError
    | Connection                   // openai.APIConnectionError
    | Status(code: int)            // any other openai.APIStatusError, with its HTTP status
    | ValueError(message: string)  // Python's ValueError, raised by the service code itself
    | Other(name: string)          // any exception outside the classes above

  /** What one call amounts to: the value it returned or the exception it raised. */
  datatype Outcome<+T> = Success(value: T) | Failure(error: Error)
}
