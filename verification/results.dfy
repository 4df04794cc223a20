/** Optional values, results and the HTTP errors the service raises. */
module Results {

  datatype Option<+T> = None | Some(value: T)

  /** The HTTP exceptions the controllers and services throw, plus the
      unhandled store or runtime error that the framework turns into a 500. */
  datatype HttpError =
    | BadRequest
    | Unauthorized
    | Forbidden
    | NotFound
    | Conflict
    | ServerError

  /** The outcome of a handler: a value, or the exception it throws. */
  datatype Result<+T> = Ok(value: T) | Err(error: HttpError)

  /** The status code the framework answers with for each exception. */
  function Status(e: HttpError): (code: nat)
    ensures 400 <= code < 600
    ensures code >= 500 <==> e == ServerError
  {
    match e
    case BadRequest => 400
    case Unauthorized => 401
    case Forbidden => 403
    case NotFound => 404
    case Conflict => 409
    case ServerError => 500
  }
}
