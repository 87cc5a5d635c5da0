/** HTTP error responses, as FastAPI's `HTTPException` carries them. */
module Http {

  /** An HTTP error response: status code and `detail` text. */
  datatype HttpError = HttpError(status: int, detail: string)

  const BadRequest := 400
  const PayloadTooLarge := 413
  const UnprocessableEntity := 422
  const InternalServerError := 500
}
