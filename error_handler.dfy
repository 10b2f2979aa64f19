/** The upstream error translator: HTTP status codes and RPC error codes from
    a backend become one of six gateway exceptions, carrying the upstream
    message unchanged. */
module ErrorHandler {
  import opened Wrappers

  /** The six exception classes the translator can return. */
  datatype ErrorKind =
    | NotFound
    | Unauthorized
    | Forbidden
    | GatewayTimeout
    | BadRequest
    | InternalError

  /** A freshly built exception: its class and the message it was built with
      (undefined when the upstream sent none). */
  datatype GatewayError = GatewayError(kind: ErrorKind, message: Option<string>)

  /** The HTTP status each exception class answers with. */
  function StatusOf(kind: ErrorKind): int {
    match kind
    case NotFound => 404
    case Unauthorized => 401
    case Forbidden => 403
    case GatewayTimeout => 504
    case BadRequest => 400
    case InternalError => 500
  }

  /** The name of the HTTP status of each exception class, which is also the
      RPC error code of that class. */
  function CodeOf(kind: ErrorKind): string {
    match kind
    case NotFound => "NOT_FOUND"
    case Unauthorized => "UNAUTHORIZED"
    case Forbidden => "FORBIDDEN"
    case GatewayTimeout => "GATEWAY_TIMEOUT"
    case BadRequest => "BAD_REQUEST"
    case InternalError => "INTERNAL_SERVER_ERROR"
  }

  /** handleHttpError: the five mapped statuses give their class, every other
      status gives InternalError; the message is kept. */
  function HandleHttpError(statusCode: int, message: Option<string>): (e: GatewayError)
    ensures e.message == message
    ensures e.kind != InternalError ==> StatusOf(e.kind) == statusCode
    ensures statusCode !in {404, 401, 403, 504, 400} <==> e.kind == InternalError
  {
    match statusCode
    case 404 => GatewayError(NotFound, message)
    case 401 => GatewayError(Unauthorized, message)
    case 403 => GatewayError(Forbidden, message)
    case 504 => GatewayError(GatewayTimeout, message)
    case 400 => GatewayError(BadRequest, message)
    case _ => GatewayError(InternalError, message)
  }

  /** handleRpcError: the same mapping keyed by the status name. */
  function HandleRpcError(errorCode: string, errorMessage: Option<string>): (e: GatewayError)
    ensures e.message == errorMessage
    ensures e.kind != InternalError ==> CodeOf(e.kind) == errorCode
    ensures (errorCode !in {"NOT_FOUND", "UNAUTHORIZED", "FORBIDDEN", "GATEWAY_TIMEOUT", "BAD_REQUEST"})
              == (e.kind == InternalError)
  {
    match errorCode
    case "NOT_FOUND" => GatewayError(NotFound, errorMessage)
    case "UNAUTHORIZED" => GatewayError(Unauthorized, errorMessage)
    case "FORBIDDEN" => GatewayError(Forbidden, errorMessage)
    case "GATEWAY_TIMEOUT" => GatewayError(GatewayTimeout, errorMessage)
    case "BAD_REQUEST" => GatewayError(BadRequest, errorMessage)
    case _ => GatewayError(InternalError, errorMessage)
  }

  /** The body of an upstream response as axios parsed it: `null`, or any
      other value together with its string `message` property, if it has one. */
  datatype ResponseData = NullData | Data(message: Option<string>)

  datatype AxiosResponse = AxiosResponse(status: int, data: ResponseData)

  /** An axios failure: a response arrived, or none did (network error,
      timeout without a structured reply). */
  datatype AxiosError = AxiosError(response: Option<AxiosResponse>)

  /** The TypeError the source raises when it reads `message` off a `null`
      response body. */
  datatype TypeError = ReadPropertyOfNull(property: string)

  /** translateAxiosError: no response gives InternalError "Unknown error";
      a response is translated by its status and its body's message. */
  function TranslateAxiosError(error: AxiosError): (r: Result<GatewayError, TypeError>)
    ensures error.response.None? ==> r == Success(GatewayError(InternalError, Some("Unknown error")))
    ensures error.response.Some? && error.response.value.data.Data? ==>
              r == Success(HandleHttpError(error.response.value.status, error.response.value.data.message))
    ensures error.response.Some? && error.response.value.data.NullData? ==>
              r == Failure(ReadPropertyOfNull("message"))
  {
    match error.response
    case None => Success(HandleHttpError(500, Some("Unknown error")))
    case Some(response) =>
      match response.data
      case NullData => Failure(ReadPropertyOfNull("message"))
      case Data(message) => Success(HandleHttpError(response.status, message))
  }

  /** Each class is reached from its own status: with the ensures of
      HandleHttpError, the HTTP mapping is exactly StatusOf inverted. */
  lemma HttpMappingExact(kind: ErrorKind, message: Option<string>)
    ensures HandleHttpError(StatusOf(kind), message) == GatewayError(kind, message)
  {
  }

  /** Each class is reached from its own RPC code. */
  lemma RpcMappingExact(kind: ErrorKind, message: Option<string>)
    ensures HandleRpcError(CodeOf(kind), message) == GatewayError(kind, message)
  {
  }

  /** The two mappings agree: the RPC code named X gives what the HTTP
      status named X gives, for every class and message. */
  lemma HttpAndRpcAgree(kind: ErrorKind, message: Option<string>)
    ensures HandleRpcError(CodeOf(kind), message) == HandleHttpError(StatusOf(kind), message)
  {
    HttpMappingExact(kind, message);
    RpcMappingExact(kind, message);
  }
}
