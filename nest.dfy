/** The HTTP exceptions the services throw, with their messages, and the acknowledgement bodies they answer. */
module Nest {
  datatype HttpError =
    | BadRequest(message: string)     // BadRequestException, status 400
    | Unauthorized(message: string)   // UnauthorizedException, status 401
    | NotFound(message: string)       // NotFoundException, status 404
    | Propagated(message: string)     // an error raised by a downstream call and rethrown unchanged

  /** A `{ status, message }` acknowledgement. */
  datatype Ack = Ack(status: string, message: string)
}
