// packages/service-response/src/ServiceResponse.ts: the table of known HTTP
// status codes (RFC 9110 section 15, with the IANA registry additions such as
// 429 and 431 from RFC 6585), the reason-phrase lookup, the response value and
// its JSON form, and the named factories installed from the table.
module HttpResponse {
  import opened JsValues

  /** The factory names of the table (`ServiceResponse.ok`, `ServiceResponse.notFound`, ...). */
  datatype FactoryName
    = Continue | SwitchingProtocols | Processing | EarlyHints | Ok | Created | Accepted
    | NonAuthoritativeInformation | NoContent | ResetContent | PartialContent
    | MultiStatus | AlreadyReported | ImUsed | MultipleChoices | MovedPermanently
    | Found | SeeOther | NotModified | TemporaryRedirect | PermanentRedirect
    | BadRequest | Unauthorized | PaymentRequired | Forbidden | NotFound
    | MethodNotAllowed | NotAcceptable | ProxyAuthenticationRequired | RequestTimeout
    | Conflict | Gone | LengthRequired | PreconditionFailed | ContentTooLarge
    | UriTooLong | UnsupportedMediaType | RangeNotSatisfiable | ExpectationFailed
    | ImATeapot | MisdirectedRequest | UnprocessableContent | Locked | FailedDependency
    | TooEarly | UpgradeRequired | PreconditionRequired | TooManyRequests
    | RequestHeaderFieldsTooLarge | UnavailableForLegalReasons | Error | NotImplemented
    | BadGateway | ServiceUnavailable | GatewayTimeout | HttpVersionNotSupported
    | VariantAlsoNegotiates | InsufficientStorage | LoopDetected | NotExtended
    | NetworkAuthenticationRequired

  /** One row of `KnownResponses`: the factory name and the reason phrase. */
  datatype Entry = Entry(factory: FactoryName, phrase: string)

  /** `KnownResponses[code]`; 200 is spelled 'Ok'. The rows are grouped by class as in the source. */
  function KnownResponse(code: int): (r: Option<Entry>)
    ensures r.Some? ==> 100 <= code < 600 && r.value.phrase != "" && r.value.phrase != "Unknown"
  {
    if code < 200 then Informational(code)
    else if code < 300 then Successful(code)
    else if code < 400 then Redirection(code)
    else if code < 500 then ClientError(code)
    else ServerError(code)
  }

  /** The factory name of the row for `code`, if the table has one. */
  function KnownFactory(code: int): Option<FactoryName> {
    match KnownResponse(code)
    case Some(entry) => Some(entry.factory)
    case None => None
  }

  /** 1xx Informational */
  function Informational(code: int): (r: Option<Entry>)
    ensures r.Some? ==> 100 <= code < 200 && r.value.phrase != "" && r.value.phrase != "Unknown"
  {
    match code
    case 100 => Some(Entry(Continue, "Continue"))
    case 101 => Some(Entry(SwitchingProtocols, "Switching Protocols"))
    case 102 => Some(Entry(Processing, "Processing"))
    case 103 => Some(Entry(EarlyHints, "Early Hints"))
    case _ => None
  }

  /** 2xx Success */
  function Successful(code: int): (r: Option<Entry>)
    ensures r.Some? ==> 200 <= code < 300 && r.value.phrase != "" && r.value.phrase != "Unknown"
  {
    match code
    case 200 => Some(Entry(Ok, "Ok"))
    case 201 => Some(Entry(Created, "Created"))
    case 202 => Some(Entry(Accepted, "Accepted"))
    case 203 => Some(Entry(NonAuthoritativeInformation, "Non-Authoritative Information"))
    case 204 => Some(Entry(NoContent, "No Content"))
    case 205 => Some(Entry(ResetContent, "Reset Content"))
    case 206 => Some(Entry(PartialContent, "Partial Content"))
    case 207 => Some(Entry(MultiStatus, "Multi-Status"))
    case 208 => Some(Entry(AlreadyReported, "Already Reported"))
    case 226 => Some(Entry(ImUsed, "IM Used"))
    case _ => None
  }

  /** 3xx Redirection */
  function Redirection(code: int): (r: Option<Entry>)
    ensures r.Some? ==> 300 <= code < 400 && r.value.phrase != "" && r.value.phrase != "Unknown"
  {
    match code
    case 300 => Some(Entry(MultipleChoices, "Multiple Choices"))
    case 301 => Some(Entry(MovedPermanently, "Moved Permanently"))
    case 302 => Some(Entry(Found, "Found"))
    case 303 => Some(Entry(SeeOther, "See Other"))
    case 304 => Some(Entry(NotModified, "Not Modified"))
    case 307 => Some(Entry(TemporaryRedirect, "Temporary Redirect"))
    case 308 => Some(Entry(PermanentRedirect, "Permanent Redirect"))
    case _ => None
  }

  /** 4xx Client Error */
  function ClientError(code: int): (r: Option<Entry>)
    ensures r.Some? ==> 400 <= code < 500 && r.value.phrase != "" && r.value.phrase != "Unknown"
  {
    match code
    case 400 => Some(Entry(BadRequest, "Bad Request"))
    case 401 => Some(Entry(Unauthorized, "Unauthorized"))
    case 402 => Some(Entry(PaymentRequired, "Payment Required"))
    case 403 => Some(Entry(Forbidden, "Forbidden"))
    case 404 => Some(Entry(NotFound, "Not Found"))
    case 405 => Some(Entry(MethodNotAllowed, "Method Not Allowed"))
    case 406 => Some(Entry(NotAcceptable, "Not Acceptable"))
    case 407 => Some(Entry(ProxyAuthenticationRequired, "Proxy Authentication Required"))
    case 408 => Some(Entry(RequestTimeout, "Request Timeout"))
    case 409 => Some(Entry(Conflict, "Conflict"))
    case 410 => Some(Entry(Gone, "Gone"))
    case 411 => Some(Entry(LengthRequired, "Length Required"))
    case 412 => Some(Entry(PreconditionFailed, "Precondition Failed"))
    case 413 => Some(Entry(ContentTooLarge, "Content Too Large"))
    case 414 => Some(Entry(UriTooLong, "URI Too Long"))
    case 415 => Some(Entry(UnsupportedMediaType, "Unsupported Media Type"))
    case 416 => Some(Entry(RangeNotSatisfiable, "Range Not Satisfiable"))
    case 417 => Some(Entry(ExpectationFailed, "Expectation Failed"))
    case 418 => Some(Entry(ImATeapot, "I\'m a teapot"))
    case 421 => Some(Entry(MisdirectedRequest, "Misdirected Request"))
    case 422 => Some(Entry(UnprocessableContent, "Unprocessable Content"))
    case 423 => Some(Entry(Locked, "Locked"))
    case 424 => Some(Entry(FailedDependency, "Failed Dependency"))
    case 425 => Some(Entry(TooEarly, "Too Early"))
    case 426 => Some(Entry(UpgradeRequired, "Upgrade Required"))
    case 428 => Some(Entry(PreconditionRequired, "Precondition Required"))
    case 429 => Some(Entry(TooManyRequests, "Too Many Requests"))
    case 431 => Some(Entry(RequestHeaderFieldsTooLarge, "Request Header Fields Too Large"))
    case 451 => Some(Entry(UnavailableForLegalReasons, "Unavailable For Legal Reasons"))
    case _ => None
  }

  /** 5xx Server Error */
  function ServerError(code: int): (r: Option<Entry>)
    ensures r.Some? ==> 500 <= code < 600 && r.value.phrase != "" && r.value.phrase != "Unknown"
  {
    match code
    case 500 => Some(Entry(Error, "Internal Server Error"))
    case 501 => Some(Entry(NotImplemented, "Not Implemented"))
    case 502 => Some(Entry(BadGateway, "Bad Gateway"))
    case 503 => Some(Entry(ServiceUnavailable, "Service Unavailable"))
    case 504 => Some(Entry(GatewayTimeout, "Gateway Timeout"))
    case 505 => Some(Entry(HttpVersionNotSupported, "HTTP Version Not Supported"))
    case 506 => Some(Entry(VariantAlsoNegotiates, "Variant Also Negotiates"))
    case 507 => Some(Entry(InsufficientStorage, "Insufficient Storage"))
    case 508 => Some(Entry(LoopDetected, "Loop Detected"))
    case 510 => Some(Entry(NotExtended, "Not Extended"))
    case 511 => Some(Entry(NetworkAuthenticationRequired, "Network Authentication Required"))
    case _ => None
  }


  /**
   * The factories installed on `ServiceResponse` by the `forEach` over the table:
   * the status the named factory builds.
   */
  function FactoryStatus(name: FactoryName): (status: int)
    ensures 100 <= status < 600
  {
    match name
      case Continue => 100
      case SwitchingProtocols => 101
      case Processing => 102
      case EarlyHints => 103
      case Ok => 200
      case Created => 201
      case Accepted => 202
      case NonAuthoritativeInformation => 203
      case NoContent => 204
      case ResetContent => 205
      case PartialContent => 206
      case MultiStatus => 207
      case AlreadyReported => 208
      case ImUsed => 226
      case MultipleChoices => 300
      case MovedPermanently => 301
      case Found => 302
      case SeeOther => 303
      case NotModified => 304
      case TemporaryRedirect => 307
      case PermanentRedirect => 308
      case BadRequest => 400
      case Unauthorized => 401
      case PaymentRequired => 402
      case Forbidden => 403
      case NotFound => 404
      case MethodNotAllowed => 405
      case NotAcceptable => 406
      case ProxyAuthenticationRequired => 407
      case RequestTimeout => 408
      case Conflict => 409
      case Gone => 410
      case LengthRequired => 411
      case PreconditionFailed => 412
      case ContentTooLarge => 413
      case UriTooLong => 414
      case UnsupportedMediaType => 415
      case RangeNotSatisfiable => 416
      case ExpectationFailed => 417
      case ImATeapot => 418
      case MisdirectedRequest => 421
      case UnprocessableContent => 422
      case Locked => 423
      case FailedDependency => 424
      case TooEarly => 425
      case UpgradeRequired => 426
      case PreconditionRequired => 428
      case TooManyRequests => 429
      case RequestHeaderFieldsTooLarge => 431
      case UnavailableForLegalReasons => 451
      case Error => 500
      case NotImplemented => 501
      case BadGateway => 502
      case ServiceUnavailable => 503
      case GatewayTimeout => 504
      case HttpVersionNotSupported => 505
      case VariantAlsoNegotiates => 506
      case InsufficientStorage => 507
      case LoopDetected => 508
      case NotExtended => 510
      case NetworkAuthenticationRequired => 511
  }

  /** `getResponseMessage(status)`: the listed reason phrase, and 'Unknown' exactly for unlisted codes. */
  function GetResponseMessage(status: int): (m: string)
    ensures KnownResponse(status).Some? ==> m == KnownResponse(status).value.phrase
    ensures m == "Unknown" <==> KnownResponse(status).None?
  {
    match KnownResponse(status)
    case Some(entry) => entry.phrase
    case None => "Unknown"
  }

  /**
   * Every row installs a factory of its own status: a listed code's factory
   * builds responses with that code, so no row's factory is overwritten by
   * another row's.
   */
  lemma FactoryForEveryRow(code: int)
    ensures KnownFactory(code).Some? ==> FactoryStatus(KnownFactory(code).value) == code
  {
    if 100 <= code < 200 {
      RowsBetween100And200(code);
    } else if 200 <= code < 300 {
      RowsBetween200And300(code);
    } else if 300 <= code < 400 {
      RowsBetween300And400(code);
    } else if 400 <= code < 408 {
      RowsBetween400And408(code);
    } else if 408 <= code < 416 {
      RowsBetween408And416(code);
    } else if 416 <= code < 426 {
      RowsBetween416And426(code);
    } else if 426 <= code < 500 {
      RowsBetween426And500(code);
    } else if 500 <= code < 505 {
      RowsBetween500And505(code);
    } else if 505 <= code < 509 {
      RowsBetween505And509(code);
    } else if 509 <= code < 600 {
      RowsBetween509And600(code);
    }
  }

  lemma RowsBetween100And200(code: int)
    requires 100 <= code < 200
    ensures KnownFactory(code).Some? ==> FactoryStatus(KnownFactory(code).value) == code
  {
  }

  lemma RowsBetween200And300(code: int)
    requires 200 <= code < 300
    ensures KnownFactory(code).Some? ==> FactoryStatus(KnownFactory(code).value) == code
  {
  }

  lemma RowsBetween300And400(code: int)
    requires 300 <= code < 400
    ensures KnownFactory(code).Some? ==> FactoryStatus(KnownFactory(code).value) == code
  {
  }

  lemma RowsBetween400And408(code: int)
    requires 400 <= code < 408
    ensures KnownFactory(code).Some? ==> FactoryStatus(KnownFactory(code).value) == code
  {
  }

  lemma RowsBetween408And416(code: int)
    requires 408 <= code < 416
    ensures KnownFactory(code).Some? ==> FactoryStatus(KnownFactory(code).value) == code
  {
  }

  lemma RowsBetween416And426(code: int)
    requires 416 <= code < 426
    ensures KnownFactory(code).Some? ==> FactoryStatus(KnownFactory(code).value) == code
  {
  }

  lemma RowsBetween426And500(code: int)
    requires 426 <= code < 500
    ensures KnownFactory(code).Some? ==> FactoryStatus(KnownFactory(code).value) == code
  {
  }

  lemma RowsBetween500And505(code: int)
    requires 500 <= code < 505
    ensures KnownFactory(code).Some? ==> FactoryStatus(KnownFactory(code).value) == code
  {
  }

  lemma RowsBetween505And509(code: int)
    requires 505 <= code < 509
    ensures KnownFactory(code).Some? ==> FactoryStatus(KnownFactory(code).value) == code
  {
  }

  lemma RowsBetween509And600(code: int)
    requires 509 <= code < 600
    ensures KnownFactory(code).Some? ==> FactoryStatus(KnownFactory(code).value) == code
  {
  }

  /**
   * Every factory is installed from a row of the table: the row at the
   * factory's status names that factory. Together with `FactoryForEveryRow`
   * this makes factory names and listed codes a one-to-one correspondence.
   */
  lemma EveryFactoryFromItsRow(name: FactoryName)
    ensures KnownFactory(FactoryStatus(name)) == Some(name)
  {
    var code := FactoryStatus(name);
    if code < 200 {
      InformationalRows(name);
    } else if code < 300 {
      SuccessfulRows(name);
    } else if code < 400 {
      RedirectionRows(name);
    } else if code < 500 {
      ClientErrorRows(name);
    } else {
      ServerErrorRows(name);
    }
  }

  lemma InformationalRows(name: FactoryName)
    requires FactoryStatus(name) < 200
    ensures Informational(FactoryStatus(name)).Some? && Informational(FactoryStatus(name)).value.factory == name
  {
  }

  lemma SuccessfulRows(name: FactoryName)
    requires 200 <= FactoryStatus(name) && FactoryStatus(name) < 300
    ensures Successful(FactoryStatus(name)).Some? && Successful(FactoryStatus(name)).value.factory == name
  {
  }

  lemma RedirectionRows(name: FactoryName)
    requires 300 <= FactoryStatus(name) && FactoryStatus(name) < 400
    ensures Redirection(FactoryStatus(name)).Some? && Redirection(FactoryStatus(name)).value.factory == name
  {
  }

  lemma ClientErrorRows(name: FactoryName)
    requires 400 <= FactoryStatus(name) && FactoryStatus(name) < 500
    ensures ClientError(FactoryStatus(name)).Some? && ClientError(FactoryStatus(name)).value.factory == name
  {
    if FactoryStatus(name) < 408 {
      LowClientErrorRows(name);
    } else if FactoryStatus(name) < 416 {
      MiddleClientErrorRows(name);
    } else {
      HighClientErrorRows(name);
    }
  }

  lemma LowClientErrorRows(name: FactoryName)
    requires 400 <= FactoryStatus(name) && FactoryStatus(name) < 408
    ensures ClientError(FactoryStatus(name)).Some? && ClientError(FactoryStatus(name)).value.factory == name
  {
  }

  lemma MiddleClientErrorRows(name: FactoryName)
    requires 408 <= FactoryStatus(name) && FactoryStatus(name) < 416
    ensures ClientError(FactoryStatus(name)).Some? && ClientError(FactoryStatus(name)).value.factory == name
  {
  }

  lemma HighClientErrorRows(name: FactoryName)
    requires 416 <= FactoryStatus(name) && FactoryStatus(name) < 500
    ensures ClientError(FactoryStatus(name)).Some? && ClientError(FactoryStatus(name)).value.factory == name
  {
  }

  lemma ServerErrorRows(name: FactoryName)
    requires 500 <= FactoryStatus(name)
    ensures ServerError(FactoryStatus(name)).Some? && ServerError(FactoryStatus(name)).value.factory == name
  {
  }

  /** No two rows share a factory name, so installing the factories overwrites none. */
  lemma {:induction false} FactoryNamesDistinct(code1: int, code2: int)
    requires KnownFactory(code1).Some? && KnownFactory(code1) == KnownFactory(code2)
    ensures code1 == code2
  {
    FactoryForEveryRow(code1);
    FactoryForEveryRow(code2);
  }

  /** A response; `body` is never `undefined` once built. */
  datatype Response = Response(status: int, body: Value) {

    /** The `message` getter. */
    function Message(): (m: string)
      ensures m == GetResponseMessage(status)
    {
      GetResponseMessage(status)
    }

    /** `toJSON()`: the body, or the reason phrase when the body is null or undefined. */
    function ToJson(): (j: JsonView)
      ensures j.status == status
      ensures !Nullish(body) ==> j.body == body
      ensures Nullish(body) ==> j.body == Str(GetResponseMessage(status))
    {
      JsonView(status, if Nullish(body) then Str(Message()) else body)
    }
  }

  /** What `JSON.stringify` sees of a response. */
  datatype JsonView = JsonView(status: int, body: Value)

  /** `new Response(status, body)` and `ServiceResponse(status, body)`; an absent body is `Undefined`. */
  function NewResponse(status: int, body: Value): (r: Response)
    ensures r.status == status
    ensures body != Undefined ==> r.body == body
    ensures body == Undefined ==> r.body == Null
    ensures r.body != Undefined
  {
    Response(status, if body != Undefined then body else Null)
  }

  /** `ServiceResponse[name](body)`: a response with the status of the factory's row. */
  function CallFactory(name: FactoryName, body: Value): (r: Response)
    ensures KnownFactory(r.status) == Some(name)
    ensures body != Undefined ==> r.body == body
    ensures body == Undefined ==> r.body == Null
  {
    EveryFactoryFromItsRow(name);
    NewResponse(FactoryStatus(name), body)
  }

  /** A built response serialises with a body that is never null or undefined. */
  lemma {:induction false} JsonBodyNeverNullish(status: int, body: Value)
    ensures !Nullish(NewResponse(status, body).ToJson().body)
    ensures Nullish(body) ==> NewResponse(status, body).ToJson().body == Str(GetResponseMessage(status))
  {
  }

  /** The examples the package's tests check. */
  lemma SpecExamples(body: Value)
    requires body != Undefined
    ensures GetResponseMessage(404) == "Not Found"
    ensures GetResponseMessage(500) == "Internal Server Error"
    ensures NewResponse(200, body).Message() == "Ok" && NewResponse(200, body).body == body
    ensures CallFactory(Ok, body) == Response(200, body)
    ensures CallFactory(NotFound, body) == Response(404, body)
  {
  }
}
