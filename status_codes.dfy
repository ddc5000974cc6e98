/**
 * The crawler's status codes: three parse-time codes of its own and the HTTP status codes of section 15 of
 * RFC 9110. The C# enum is one flat list, commented by class; here each commented class is a datatype of its
 * names and `StatusCode` says which class a name belongs to. The enum gives five codes two names; every name
 * is a constructor and `Value` is the number the enum assigns to it. No name has the value 0, so the enum's
 * default value means "not set yet", which the model writes as `None`.
 *
 * Equality of `StatusCode` values here is finer than in C#: `Redirection(Ambiguous)` and
 * `Redirection(MultipleChoices)` are distinct constructors, while in C# they are one enum value. The C# identity
 * of a code is its `Value`; `ValuesDistinctExceptAliases` says exactly which distinct names it identifies.
 */
module StatusCodes {
  import Wrappers

  /** The names listed under -1xx parsing error. */
  datatype ParsingErrorName =
      MalformedUri | UriSchemeNotSupported | OrphanedUri

  /** The names listed under 1xx informational. */
  datatype InformationalName =
      Continue | SwitchingProtocols | Processing | EarlyHints

  /** The names listed under 2xx success. */
  datatype SuccessfulName =
      Ok | Created | Accepted | NonAuthoritativeInformation | NoContent | ResetContent | PartialContent
    | MultiStatus | AlreadyReported | ImUsed

  /** The names listed under 3xx redirection. */
  datatype RedirectionName =
      Ambiguous | MultipleChoices | Moved | MovedPermanently | Found | Redirect | RedirectMethod | SeeOther
    | NotModified | UseProxy | Unused | RedirectKeepVerb | TemporaryRedirect | PermanentRedirect

  /** The names listed under 4xx client error. */
  datatype ClientErrorName =
      BadRequest | Unauthorized | PaymentRequired | Forbidden | NotFound | MethodNotAllowed | NotAcceptable
    | ProxyAuthenticationRequired | RequestTimeout | Conflict | Gone | LengthRequired | PreconditionFailed
    | RequestEntityTooLarge | RequestUriTooLong | UnsupportedMediaType | RequestedRangeNotSatisfiable
    | ExpectationFailed | MisdirectedRequest | UnprocessableEntity | Locked | FailedDependency
    | UpgradeRequired | PreconditionRequired | TooManyRequests | RequestHeaderFieldsTooLarge
    | UnavailableForLegalReasons

  /** The names listed under 5xx server error. */
  datatype ServerErrorName =
      InternalServerError | NotImplemented | BadGateway | ServiceUnavailable | GatewayTimeout
    | HttpVersionNotSupported | VariantAlsoNegotiates | InsufficientStorage | LoopDetected | NotExtended
    | NetworkAuthenticationRequired

  datatype StatusCode =
    | ParsingError(parsingError: ParsingErrorName)
    | Informational(informational: InformationalName)
    | Successful(successful: SuccessfulName)
    | Redirection(redirection: RedirectionName)
    | ClientError(clientError: ClientErrorName)
    | ServerError(serverError: ServerErrorName)

  /** The values of the names under -1xx parsing error: all between -102 and -100. Distinct names have distinct values. */
  function ParsingErrorValue(n: ParsingErrorName): (v: int)
    ensures -102 <= v <= -100
  {
    match n
    case MalformedUri => -100
    case UriSchemeNotSupported => -101
    case OrphanedUri => -102
  }

  /** The name of a value under -1xx parsing error. */
  function ParsingErrorFromValue(v: int): Wrappers.Option<ParsingErrorName>
  {
    if v == -100 then Wrappers.Some(MalformedUri)
    else if v == -101 then Wrappers.Some(UriSchemeNotSupported)
    else if v == -102 then Wrappers.Some(OrphanedUri)
    else Wrappers.None
  }

  /** The values of the names under 1xx informational: all between 100 and 103. Distinct names have distinct values. */
  function InformationalValue(n: InformationalName): (v: int)
    ensures 100 <= v <= 103
  {
    match n
    case Continue => 100
    case SwitchingProtocols => 101
    case Processing => 102
    case EarlyHints => 103
  }

  /** The name of a value under 1xx informational. */
  function InformationalFromValue(v: int): Wrappers.Option<InformationalName>
  {
    if v == 100 then Wrappers.Some(Continue)
    else if v == 101 then Wrappers.Some(SwitchingProtocols)
    else if v == 102 then Wrappers.Some(Processing)
    else if v == 103 then Wrappers.Some(EarlyHints)
    else Wrappers.None
  }

  /** The values of the names under 2xx success: all between 200 and 226. Distinct names have distinct values. */
  function SuccessfulValue(n: SuccessfulName): (v: int)
    ensures 200 <= v <= 226
  {
    match n
    case Ok => 200
    case Created => 201
    case Accepted => 202
    case NonAuthoritativeInformation => 203
    case NoContent => 204
    case ResetContent => 205
    case PartialContent => 206
    case MultiStatus => 207
    case AlreadyReported => 208
    case ImUsed => 226
  }

  /** The name of a value under 2xx success. */
  function SuccessfulFromValue(v: int): Wrappers.Option<SuccessfulName>
  {
    if v == 200 then Wrappers.Some(Ok)
    else if v == 201 then Wrappers.Some(Created)
    else if v == 202 then Wrappers.Some(Accepted)
    else if v == 203 then Wrappers.Some(NonAuthoritativeInformation)
    else if v == 204 then Wrappers.Some(NoContent)
    else if v == 205 then Wrappers.Some(ResetContent)
    else if v == 206 then Wrappers.Some(PartialContent)
    else if v == 207 then Wrappers.Some(MultiStatus)
    else if v == 208 then Wrappers.Some(AlreadyReported)
    else if v == 226 then Wrappers.Some(ImUsed)
    else Wrappers.None
  }

  /** The values of the names under 3xx redirection: all between 300 and 308. Aliases share a value. */
  function RedirectionValue(n: RedirectionName): (v: int)
    ensures 300 <= v <= 308
  {
    match n
    case Ambiguous => 300
    case MultipleChoices => 300
    case Moved => 301
    case MovedPermanently => 301
    case Found => 302
    case Redirect => 302
    case RedirectMethod => 303
    case SeeOther => 303
    case NotModified => 304
    case UseProxy => 305
    case Unused => 306
    case RedirectKeepVerb => 307
    case TemporaryRedirect => 307
    case PermanentRedirect => 308
  }

  /** The name of a value under 3xx redirection; for a shared value, the name section 15.4 of RFC 9110 gives it. */
  function RedirectionFromValue(v: int): Wrappers.Option<RedirectionName>
  {
    if v == 300 then Wrappers.Some(MultipleChoices)
    else if v == 301 then Wrappers.Some(MovedPermanently)
    else if v == 302 then Wrappers.Some(Found)
    else if v == 303 then Wrappers.Some(SeeOther)
    else if v == 304 then Wrappers.Some(NotModified)
    else if v == 305 then Wrappers.Some(UseProxy)
    else if v == 306 then Wrappers.Some(Unused)
    else if v == 307 then Wrappers.Some(TemporaryRedirect)
    else if v == 308 then Wrappers.Some(PermanentRedirect)
    else Wrappers.None
  }

  /** The values of the names under 4xx client error: all between 400 and 451. Distinct names have distinct values. */
  function ClientErrorValue(n: ClientErrorName): (v: int)
    ensures 400 <= v <= 451
  {
    match n
    case BadRequest => 400
    case Unauthorized => 401
    case PaymentRequired => 402
    case Forbidden => 403
    case NotFound => 404
    case MethodNotAllowed => 405
    case NotAcceptable => 406
    case ProxyAuthenticationRequired => 407
    case RequestTimeout => 408
    case Conflict => 409
    case Gone => 410
    case LengthRequired => 411
    case PreconditionFailed => 412
    case RequestEntityTooLarge => 413
    case RequestUriTooLong => 414
    case UnsupportedMediaType => 415
    case RequestedRangeNotSatisfiable => 416
    case ExpectationFailed => 417
    case MisdirectedRequest => 421
    case UnprocessableEntity => 422
    case Locked => 423
    case FailedDependency => 424
    case UpgradeRequired => 426
    case PreconditionRequired => 428
    case TooManyRequests => 429
    case RequestHeaderFieldsTooLarge => 431
    case UnavailableForLegalReasons => 451
  }

  /** The name of a value under 4xx client error. */
  function ClientErrorFromValue(v: int): Wrappers.Option<ClientErrorName>
  {
    if v == 400 then Wrappers.Some(BadRequest)
    else if v == 401 then Wrappers.Some(Unauthorized)
    else if v == 402 then Wrappers.Some(PaymentRequired)
    else if v == 403 then Wrappers.Some(Forbidden)
    else if v == 404 then Wrappers.Some(NotFound)
    else if v == 405 then Wrappers.Some(MethodNotAllowed)
    else if v == 406 then Wrappers.Some(NotAcceptable)
    else if v == 407 then Wrappers.Some(ProxyAuthenticationRequired)
    else if v == 408 then Wrappers.Some(RequestTimeout)
    else if v == 409 then Wrappers.Some(Conflict)
    else if v == 410 then Wrappers.Some(Gone)
    else if v == 411 then Wrappers.Some(LengthRequired)
    else if v == 412 then Wrappers.Some(PreconditionFailed)
    else if v == 413 then Wrappers.Some(RequestEntityTooLarge)
    else if v == 414 then Wrappers.Some(RequestUriTooLong)
    else if v == 415 then Wrappers.Some(UnsupportedMediaType)
    else if v == 416 then Wrappers.Some(RequestedRangeNotSatisfiable)
    else if v == 417 then Wrappers.Some(ExpectationFailed)
    else if v == 421 then Wrappers.Some(MisdirectedRequest)
    else if v == 422 then Wrappers.Some(UnprocessableEntity)
    else if v == 423 then Wrappers.Some(Locked)
    else if v == 424 then Wrappers.Some(FailedDependency)
    else if v == 426 then Wrappers.Some(UpgradeRequired)
    else if v == 428 then Wrappers.Some(PreconditionRequired)
    else if v == 429 then Wrappers.Some(TooManyRequests)
    else if v == 431 then Wrappers.Some(RequestHeaderFieldsTooLarge)
    else if v == 451 then Wrappers.Some(UnavailableForLegalReasons)
    else Wrappers.None
  }

  /** The values of the names under 5xx server error: all between 500 and 511. Distinct names have distinct values. */
  function ServerErrorValue(n: ServerErrorName): (v: int)
    ensures 500 <= v <= 511
  {
    match n
    case InternalServerError => 500
    case NotImplemented => 501
    case BadGateway => 502
    case ServiceUnavailable => 503
    case GatewayTimeout => 504
    case HttpVersionNotSupported => 505
    case VariantAlsoNegotiates => 506
    case InsufficientStorage => 507
    case LoopDetected => 508
    case NotExtended => 510
    case NetworkAuthenticationRequired => 511
  }

  /** The name of a value under 5xx server error. */
  function ServerErrorFromValue(v: int): Wrappers.Option<ServerErrorName>
  {
    if v == 500 then Wrappers.Some(InternalServerError)
    else if v == 501 then Wrappers.Some(NotImplemented)
    else if v == 502 then Wrappers.Some(BadGateway)
    else if v == 503 then Wrappers.Some(ServiceUnavailable)
    else if v == 504 then Wrappers.Some(GatewayTimeout)
    else if v == 505 then Wrappers.Some(HttpVersionNotSupported)
    else if v == 506 then Wrappers.Some(VariantAlsoNegotiates)
    else if v == 507 then Wrappers.Some(InsufficientStorage)
    else if v == 508 then Wrappers.Some(LoopDetected)
    else if v == 510 then Wrappers.Some(NotExtended)
    else if v == 511 then Wrappers.Some(NetworkAuthenticationRequired)
    else Wrappers.None
  }

  /**
   * Whether a 3xx name is the enum's other name for a code: the one that is not the name section 15.4 of RFC 9110
   * gives it. In the enum the alias comes first for 300, 301, 303 and 307, and second for 302.
   */
  predicate IsAlias(n: RedirectionName)
  {
    n.Ambiguous? || n.Moved? || n.Redirect? || n.RedirectMethod? || n.RedirectKeepVerb?
  }

  /** The pairs of names the enum gives the same value, in either order. */
  predicate Aliases(a: StatusCode, b: StatusCode)
  {
    a.Redirection? && b.Redirection? && RedirectionAliases(a.redirection, b.redirection)
  }

  predicate RedirectionAliases(a: RedirectionName, b: RedirectionName)
  {
    (a.Ambiguous? && b.MultipleChoices?) || (a.MultipleChoices? && b.Ambiguous?) ||
    (a.Moved? && b.MovedPermanently?) || (a.MovedPermanently? && b.Moved?) ||
    (a.Redirect? && b.Found?) || (a.Found? && b.Redirect?) ||
    (a.RedirectMethod? && b.SeeOther?) || (a.SeeOther? && b.RedirectMethod?) ||
    (a.RedirectKeepVerb? && b.TemporaryRedirect?) || (a.TemporaryRedirect? && b.RedirectKeepVerb?)
  }

  /** The RFC 9110 name of the alias pair a 3xx name belongs to; every other name maps to itself. */
  function Canonical(n: RedirectionName): (r: RedirectionName)
    ensures r == n <==> !IsAlias(n)
    ensures IsAlias(n) ==> RedirectionAliases(n, r) && !IsAlias(r)
  {
    match n
    case Ambiguous => MultipleChoices
    case Moved => MovedPermanently
    case Redirect => Found
    case RedirectMethod => SeeOther
    case RedirectKeepVerb => TemporaryRedirect
    case _ => n
  }

  /**
   * The value the enum assigns to each name. No value is 0; exactly the three parse errors are negative
   * (-100 to -102); every HTTP code lies in the hundred-range of its class, between 100 and 511.
   */
  function Value(c: StatusCode): (v: int)
    ensures v != 0
    ensures v < 0 <==> c.ParsingError?
    ensures c.ParsingError? ==> -102 <= v <= -100
    ensures !c.ParsingError? ==> 100 <= v <= 511
    ensures c.Informational? ==> 100 <= v <= 199
    ensures c.Successful? ==> 200 <= v <= 299
    ensures c.Redirection? ==> 300 <= v <= 399
    ensures c.ClientError? ==> 400 <= v <= 499
    ensures c.ServerError? ==> 500 <= v <= 599
  {
    match c
    case ParsingError(n) => ParsingErrorValue(n)
    case Informational(n) => InformationalValue(n)
    case Successful(n) => SuccessfulValue(n)
    case Redirection(n) => RedirectionValue(n)
    case ClientError(n) => ClientErrorValue(n)
    case ServerError(n) => ServerErrorValue(n)
  }

  /** The name of a value, its RFC 9110 name where the enum has two, or `None` for a value no name has. */
  function FromValue(v: int): (r: Wrappers.Option<StatusCode>)
    ensures r.Some? ==> Value(r.value) == v && CanonicalCode(r.value) == r.value
  {
    if v < 0 then match ParsingErrorFromValue(v) { case Some(n) => Wrappers.Some(ParsingError(n)) case None => Wrappers.None }
    else if v < 200 then match InformationalFromValue(v) { case Some(n) => Wrappers.Some(Informational(n)) case None => Wrappers.None }
    else if v < 300 then match SuccessfulFromValue(v) { case Some(n) => Wrappers.Some(Successful(n)) case None => Wrappers.None }
    else if v < 400 then match RedirectionFromValue(v) { case Some(n) => Wrappers.Some(Redirection(n)) case None => Wrappers.None }
    else if v < 500 then match ClientErrorFromValue(v) { case Some(n) => Wrappers.Some(ClientError(n)) case None => Wrappers.None }
    else match ServerErrorFromValue(v) { case Some(n) => Wrappers.Some(ServerError(n)) case None => Wrappers.None }
  }

  /** The RFC 9110 spelling of a name: aliases are replaced by their partner. */
  function CanonicalCode(c: StatusCode): StatusCode
  {
    if c.Redirection? then Redirection(Canonical(c.redirection)) else c
  }

  lemma ParsingErrorFromValueInverts(n: ParsingErrorName)
    ensures ParsingErrorFromValue(ParsingErrorValue(n)) == Wrappers.Some(n)
  {
    match n {
      case MalformedUri =>
      case UriSchemeNotSupported =>
      case OrphanedUri =>
    }
  }

  lemma InformationalFromValueInverts(n: InformationalName)
    ensures InformationalFromValue(InformationalValue(n)) == Wrappers.Some(n)
  {
    match n {
      case Continue =>
      case SwitchingProtocols =>
      case Processing =>
      case EarlyHints =>
    }
  }

  lemma SuccessfulFromValueInverts(n: SuccessfulName)
    ensures SuccessfulFromValue(SuccessfulValue(n)) == Wrappers.Some(n)
  {
    match n {
      case Ok =>
      case Created =>
      case Accepted =>
      case NonAuthoritativeInformation =>
      case NoContent =>
      case ResetContent =>
      case PartialContent =>
      case MultiStatus =>
      case AlreadyReported =>
      case ImUsed =>
    }
  }

  lemma RedirectionFromValueInverts(n: RedirectionName)
    ensures RedirectionFromValue(RedirectionValue(n)) == Wrappers.Some(Canonical(n))
  {
    match n {
      case Ambiguous =>
      case MultipleChoices =>
      case Moved =>
      case MovedPermanently =>
      case Found =>
      case Redirect =>
      case RedirectMethod =>
      case SeeOther =>
      case NotModified =>
      case UseProxy =>
      case Unused =>
      case RedirectKeepVerb =>
      case TemporaryRedirect =>
      case PermanentRedirect =>
    }
  }

  lemma ClientErrorFromValueInverts(n: ClientErrorName)
    ensures ClientErrorFromValue(ClientErrorValue(n)) == Wrappers.Some(n)
  {
    match n {
      case BadRequest =>
      case Unauthorized =>
      case PaymentRequired =>
      case Forbidden =>
      case NotFound =>
      case MethodNotAllowed =>
      case NotAcceptable =>
      case ProxyAuthenticationRequired =>
      case RequestTimeout =>
      case Conflict =>
      case Gone =>
      case LengthRequired =>
      case PreconditionFailed =>
      case RequestEntityTooLarge =>
      case RequestUriTooLong =>
      case UnsupportedMediaType =>
      case RequestedRangeNotSatisfiable =>
      case ExpectationFailed =>
      case MisdirectedRequest =>
      case UnprocessableEntity =>
      case Locked =>
      case FailedDependency =>
      case UpgradeRequired =>
      case PreconditionRequired =>
      case TooManyRequests =>
      case RequestHeaderFieldsTooLarge =>
      case UnavailableForLegalReasons =>
    }
  }

  lemma ServerErrorFromValueInverts(n: ServerErrorName)
    ensures ServerErrorFromValue(ServerErrorValue(n)) == Wrappers.Some(n)
  {
    match n {
      case InternalServerError =>
      case NotImplemented =>
      case BadGateway =>
      case ServiceUnavailable =>
      case GatewayTimeout =>
      case HttpVersionNotSupported =>
      case VariantAlsoNegotiates =>
      case InsufficientStorage =>
      case LoopDetected =>
      case NotExtended =>
      case NetworkAuthenticationRequired =>
    }
  }

  /** `FromValue` inverts `Value` up to aliases: the value of a name gives back its RFC 9110 spelling. */
  lemma FromValueInvertsValue(c: StatusCode)
    ensures FromValue(Value(c)) == Wrappers.Some(CanonicalCode(c))
  {
    match c {
      case ParsingError(n) => ParsingErrorFromValueInverts(n);
      case Informational(n) => InformationalFromValueInverts(n);
      case Successful(n) => SuccessfulFromValueInverts(n);
      case Redirection(n) => RedirectionFromValueInverts(n);
      case ClientError(n) => ClientErrorFromValueInverts(n);
      case ServerError(n) => ServerErrorFromValueInverts(n);
    }
  }

  /** Two distinct names share a value exactly when they are one of the enum's alias pairs. */
  lemma ValuesDistinctExceptAliases(a: StatusCode, b: StatusCode)
    requires a != b
    ensures Value(a) == Value(b) <==> Aliases(a, b)
  {
    FromValueInvertsValue(a);
    FromValueInvertsValue(b);
    if Aliases(a, b) {
      assert Value(a) == RedirectionValue(a.redirection) == RedirectionValue(b.redirection);
    }
  }

  /**
   * For the five shared values `FromValue` picks the RFC 9110 names, which the enum lists second for 300, 301,
   * 303 and 307 and first for 302.
   */
  lemma FromValuePicksRfcNames()
    ensures FromValue(300) == Wrappers.Some(Redirection(MultipleChoices))
    ensures FromValue(301) == Wrappers.Some(Redirection(MovedPermanently))
    ensures FromValue(302) == Wrappers.Some(Redirection(Found))
    ensures FromValue(303) == Wrappers.Some(Redirection(SeeOther))
    ensures FromValue(307) == Wrappers.Some(Redirection(TemporaryRedirect))
  {
  }

  /** The alias pairs the enum lists, with their shared values. */
  lemma AliasValues()
    ensures Value(Redirection(Ambiguous)) == Value(Redirection(MultipleChoices)) == 300
    ensures Value(Redirection(Moved)) == Value(Redirection(MovedPermanently)) == 301
    ensures Value(Redirection(Found)) == Value(Redirection(Redirect)) == 302
    ensures Value(Redirection(RedirectMethod)) == Value(Redirection(SeeOther)) == 303
    ensures Value(Redirection(RedirectKeepVerb)) == Value(Redirection(TemporaryRedirect)) == 307
  {
  }
}
