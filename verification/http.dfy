/** The HTTP responses the handlers write: a status code, the headers they
    set, and a body that is absent, plain text, or a JSON document. */
module Http {
  import opened Json

  const StatusOK: int := 200
  const StatusNoContent: int := 204
  const StatusInternalServerError: int := 500

  datatype Body = NoBody | Text(text: string) | JsonBody(json: Json)

  datatype Response = Response(status: int, headers: map<string, string>, body: Body)

  /** `http.Error`: a plain-text body holding the message and a newline. */
  function Error(message: string, code: int): Response {
    Response(
      code,
      map["Content-Type" := "text/plain; charset=utf-8", "X-Content-Type-Options" := "nosniff"],
      Text(message + "\n"))
  }

  /** A handler's JSON answer: the Content-Type header, then the encoded document. */
  function JsonResponse(j: Json): Response {
    Response(StatusOK, map["Content-Type" := "application/json"], JsonBody(j))
  }
}
