/**
 * The error values a procedure of the API can raise: a tRPC error code and
 * its human-readable message.
 */
module Trpc {

  datatype Code =
    | NotFound
    | Forbidden
    | BadRequest
    | Unauthorized
    | TooManyRequests
    | InternalServerError

  datatype Error = Error(code: Code, message: string)
}
