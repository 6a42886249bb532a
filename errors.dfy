/** The errors the services and workers throw. */
module Errors {
  import opened Wrappers

  /** The HTTP status names an ApiError is raised with (their numeric codes are not part of this model). */
  datatype HttpStatus = BadRequest | Unauthorized | NotFound | Conflict | InternalServerError | BadGateway

  datatype Error =
    /** `new ApiError(message, status)`; `None` is the status ApiError picks when none is given. */
    | ApiError(message: string, status: Option<HttpStatus>)
    /** A plain `new Error(message)`. */
    | Plain(message: string)
    /** The TypeError JavaScript throws on a property read of null or undefined. */
    | TypeError(message: string)
    /** An error thrown by a collaborator (store, repository, engine) and passed on unchanged. */
    | Upstream(message: string)

  function Api(message: string): Error {
    ApiError(message, None)
  }

  function ApiWith(message: string, status: HttpStatus): Error {
    ApiError(message, Some(status))
  }
}
