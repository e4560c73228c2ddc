/** HTTP status codes and the error response `respondWithErr` writes (backend/http_helpers.go). */
module Http {

  const StatusOK := 200
  const StatusBadRequest := 400
  const StatusNotFound := 404
  const StatusInternalServerError := 500
  const StatusBadGateway := 502

  /** The generic body of every internal failure. */
  const ErrorInternal := "error:internal"

  /** An error response: the status code and the short body string written to the client. */
  datatype HttpError = HttpError(status: int, body: string)
}
