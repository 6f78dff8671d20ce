/** The error a route handler raises (`HTTPException`): status code, detail text and extra headers. */
module Http {

  datatype HttpError = HttpError(status: int, detail: string, headers: map<string, string>)

  const BadRequest := 400
  const Unauthorized := 401
  const Forbidden := 403
  const NotFound := 404

  /** An error with no extra response headers. */
  function Raise(status: int, detail: string): (e: HttpError)
    ensures e.status == status && e.detail == detail && e.headers == map[]
  {
    HttpError(status, detail, map[])
  }
}
