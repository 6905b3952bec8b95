/** Responses of the route handlers: a status code and a JSON body. */
module Http {

  const StatusOk: int := 200
  const StatusCreated: int := 201
  const StatusBadRequest: int := 400
  const StatusUnauthorized: int := 401
  const StatusForbidden: int := 403
  const StatusNotFound: int := 404
  const StatusConflict: int := 409
  const StatusInternalError: int := 500

  /** `{ error }`, `{ message }`, a data payload, or the framework's own error
      page for an exception that escapes the handler. */
  datatype Body<+T> =
    | Error(error: string)
    | Message(message: string)
    | Json(data: T)
    | Uncaught

  datatype Response<+T> = Response(status: int, body: Body<T>)

  /** What the framework answers when a route handler throws: status 500. */
  function UncaughtException<T>(): (r: Response<T>)
    ensures r.status == StatusInternalError && r.body.Uncaught?
  {
    Response(StatusInternalError, Uncaught)
  }
}
