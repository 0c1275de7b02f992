/** Failure-carrying datatypes for the services' null returns and thrown exceptions. */
module Wrappers {

  /** A value that may be absent (TypeScript `T | null | undefined`). */
  datatype Option<T> = None | Some(value: T) {
    /** The value, or `default` when absent (TypeScript `??`). */
    function GetOr(default: T): T {
      if Some? then value else default
    }
  }

  /** The exceptions the services throw, with their HTTP class. */
  datatype Error =
    | NotFound(message: string)       // NotFoundException
    | Unauthorized(message: string)   // UnauthorizedException
    | Conflict(message: string)       // ConflictException
    | WebhookError                    // the plain Error thrown when a webhook signature is rejected
    | UpstreamFailure                 // a storage or billing call threw
    | ForeignKeyViolation             // the database refused a row whose parent row is missing
    | DatabaseError                   // the database refused a value its column type cannot hold

  /** The outcome of an operation that either returns a value or throws. */
  datatype Result<T> = Ok(value: T) | Err(error: Error)
}
