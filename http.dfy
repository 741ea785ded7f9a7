/** The error an endpoint answers with: FastAPI's `HTTPException(status_code, detail)`. */
module Http {

  datatype HttpError = HttpError(status: int, detail: string)

  const BadRequest := 400
  const Unauthorized := 401
  const Forbidden := 403
  const NotFound := 404
  const Conflict := 409
  const ServerError := 500
}
