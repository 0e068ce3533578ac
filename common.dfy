/** What both source trees share: option/result wrappers, the error taxonomy the
    ingestion code throws, and the selector between the two copies of the code. */
module Common {

  datatype Option<+T> = None | Some(value: T)

  datatype Result<+T, +E> = Success(value: T) | Failure(error: E)

  /** The two copies of the ingestion code: `server/lib/` and the older `lib/`. */
  datatype Tree = Server | Legacy

  /** A failed HTTP request as `request-promise-native` reports it: `statusCode`
      is absent for network errors, `url` is `err.options.url`, `body` is `err.error`. */
  datatype RequestError = RequestError(statusCode: Option<int>, url: string, body: string)

  /** The payload a Boom error carries: the server copy attaches `{url, body}`,
      the legacy copy attaches the response body only. */
  datatype BoomData = UrlAndBody(url: string, body: string) | Body(body: string)

  datatype Requirement = Required | NotEmpty

  datatype Error =
    | Boom(status: int, message: string, data: BoomData)
    | Rethrown(cause: RequestError)
    | NoId
    | Invalid(subject: string, rule: Requirement)
    | NoGroupFound(name: string)
    | UnsupportedModel(name: string)
    | NotFound(message: string)
    | Database(code: Option<int>)

  /** The `message` property of each error, as the source builds it. */
  function Message(e: Error): string
  {
    match e
    case Boom(_, m, _) => m
    case Rethrown(_) => "request failed"
    case NoId => "no id provided for competition"
    case Invalid(subject, Required) => "\"" + subject + "\" is required"
    case Invalid(subject, NotEmpty) => "\"" + subject + "\" is not allowed to be empty"
    case NoGroupFound(name) => "no group found with name " + name
    case UnsupportedModel(name) => "Unsupported model class " + name
    case NotFound(m) => m
    case Database(_) => "database error"
  }

  /** JavaScript truthiness of an optional number: absent and 0 are falsy. */
  predicate Truthy(n: Option<int>)
  {
    n.Some? && n.value != 0
  }
}
