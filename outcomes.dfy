/** Values that stand for the exceptions the services raise and the optional
    values they read. */
module Outcomes {

  datatype Option<T> = None | Some(value: T) {
    /** `d.get(key, default)`: the value when present, the default otherwise. */
    function GetOr(default: T): T {
      if Some? then value else default
    }
  }

  datatype Result<T, E> = Ok(value: T) | Err(error: E)

  /** What made an upstream request fail below the level of the service's own checks. */
  datatype Cause =
    | HttpStatus(code: int)     // `raise_for_status` on a 4xx or 5xx response
    | Transport(reason: string) // connection error, timeout, ...

  /** The failures of the two backends, classified. */
  datatype ServiceError =
    | InvalidInput(message: string)         // ValueError: empty key, bad limit
    | ConfigurationError(message: string)   // ValueError: no bearer token at construction
    | RateLimited(message: string)          // RuntimeError on status 429
    | AuthenticationFailed(message: string) // RuntimeError on status 401
    | Forbidden(message: string)            // RuntimeError on status 403
    | RequestFailed(cause: Cause)           // RuntimeError "API request failed: ..."
    | NotFound(message: string)             // RuntimeError "User '...' not found"
    | MalformedPayload(message: string)     // KeyError or ValueError escaping the payload parser
}
