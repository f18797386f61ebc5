/** The error type the server passes to `next` (server/utils/errorResponse.js), the
    status codes the handlers use, and the authenticated caller they read from `req.user`. */
module Http {

  /** `new ErrorResponse(message, statusCode)`. */
  datatype ErrorResponse = ErrorResponse(message: string, statusCode: int)

  const BadRequest := 400
  const Unauthorized := 401
  const Forbidden := 403
  const NotFound := 404
  const ServerError := 500

  /** The fields of `req.user` the guards and handlers consult. */
  datatype Caller = Caller(id: string, role: string, isVerified: bool)

  const AdminRole := "admin"

  predicate IsAdmin(c: Caller) { c.role == AdminRole }
}
