/**
 * The error normaliser: a first-match classifier that turns an error value of
 * unknown shape into the uniform payload, a sanitised status and the response
 * headers it asks for, or forwards the value untouched when it cannot act on it.
 */
module ErrorNormaliser {
  import opened Wrappers
  import opened Js
  import opened Types
  import opened Express

  /** A value whose `typeof` is not `'object'`: `null` and objects are excluded. */
  type Primitive = v: JsValue | !v.Null? && !v.Obj? witness Undefined

  /** The value handed to the error channel, by its JavaScript shape. */
  datatype RawError =
    | NonObject(value: Primitive)  // `typeof err !== 'object'`
    | NullValue
    | ArrayValue(elements: seq<JsValue>)
      /** An `HttpError` of the request validator. */
    | HttpErrorValue(status: int, message: string, errors: seq<ValidationItem>)
      /** Any other `Error` instance; `props` are its properties other than `message`. */
    | ErrorInstance(message: string, props: map<string, JsValue>)
    | PlainObject(props: map<string, JsValue>)

  /** `typeof err === 'object' && err !== null && !Array.isArray(err)`. */
  predicate IsActionable(err: RawError) {
    err.HttpErrorValue? || err.ErrorInstance? || err.PlainObject?
  }

  /** `key in err` for an object that is not an `HttpError`. */
  predicate HasProperty(err: RawError, key: string) {
    match err
    case ErrorInstance(_, props) => key == "message" || key in props
    case PlainObject(props) => key in props
    case _ => false
  }

  /** `err[key]`, `undefined` when the property is missing. */
  function Property(err: RawError, key: string): JsValue {
    match err
    case ErrorInstance(message, props) =>
      if key == "message" then Str(message) else if key in props then props[key] else Undefined
    case PlainObject(props) => if key in props then props[key] else Undefined
    case _ => Undefined
  }

  /** A destructuring default: it replaces `undefined` only. */
  function WithDefault(v: JsValue, default: JsValue): JsValue {
    if v == Undefined then default else v
  }

  /** `message || fallback`: the empty string is falsy. */
  function OrDefault(message: string, fallback: string): string {
    if message != "" then message else fallback
  }

  datatype TableEntry = TableEntry(code: string, defaultMessage: string)

  /** The statuses the validator's errors are expected to carry, with their code and default message. */
  const OpenApiStatusTable: map<int, TableEntry> := map[
    400 := TableEntry("BAD_REQUEST", "Request validation failed"),
    401 := TableEntry("UNAUTHORIZED", "You are not authorized to perform this request"),
    403 := TableEntry("FORBIDDEN", "Access denied"),
    404 := TableEntry("NOT_FOUND", "Not found"),
    405 := TableEntry("METHOD_NOT_ALLOWED", "Method not allowed"),
    413 := TableEntry("REQUEST_TOO_LARGE", "Request entity too large"),
    415 := TableEntry("UNSUPPORTED_MEDIA_TYPE", "Unsupported media type")
  ]

  /** `transformOpenApiError`: a validator error through the status switch. */
  function TransformOpenApiError(err: RawError): (r: ErrorResponse)
    requires err.HttpErrorValue?
    ensures r.status == Int(err.status) && r.errors == Some(err.errors) && r.additionalHeaders == None
    ensures err.status in OpenApiStatusTable ==>
      && r.code == OpenApiStatusTable[err.status].code
      && r.message == (if err.message != "" then err.message else OpenApiStatusTable[err.status].defaultMessage)
    ensures err.status !in OpenApiStatusTable ==> r.code == "UNKNOWN_ERROR" && r.message == "Unknown error"
  {
    var result := ErrorResponse(Int(err.status), "UNKNOWN_ERROR", "Unknown error", Some(err.errors), None);
    match err.status
    case 400 => result.(code := "BAD_REQUEST", message := OrDefault(err.message, "Request validation failed"))
    case 401 => result.(code := "UNAUTHORIZED",
                        message := OrDefault(err.message, "You are not authorized to perform this request"))
    case 403 => result.(code := "FORBIDDEN", message := OrDefault(err.message, "Access denied"))
    case 404 => result.(code := "NOT_FOUND", message := OrDefault(err.message, "Not found"))
    case 405 => result.(code := "METHOD_NOT_ALLOWED", message := OrDefault(err.message, "Method not allowed"))
    case 413 => result.(code := "REQUEST_TOO_LARGE", message := OrDefault(err.message, "Request entity too large"))
    case 415 => result.(code := "UNSUPPORTED_MEDIA_TYPE", message := OrDefault(err.message, "Unsupported media type"))
    case _ => result
  }

  /** `+\`${status}\`` of the `status` member, which defaults to 500 when `undefined`. */
  function CoerceStatus(status: JsValue): Number {
    StringToNumber(ToString(WithDefault(status, Num(Int(500)))))
  }

  /** An object with a `status` key: each `undefined` member defaulted, then coerced as `+\`${status}\``, `${code}`, `${message}`. */
  function FromErrorLike(err: RawError): (r: ErrorResponse)
    ensures r.errors == None && r.additionalHeaders == None
    ensures Property(err, "code") == Undefined ==> r.code == "UNKNOWN_ERROR"
    ensures Property(err, "code") != Undefined ==> r.code == ToString(Property(err, "code"))
    ensures Property(err, "message") == Undefined ==> r.message == "Unknown error"
    ensures Property(err, "message") != Undefined ==> r.message == ToString(Property(err, "message"))
  {
    var code := WithDefault(Property(err, "code"), Str("UNKNOWN_ERROR"));
    var message := WithDefault(Property(err, "message"), Str("Unknown error"));
    ErrorResponse(CoerceStatus(Property(err, "status")), ToString(code), ToString(message), None, None)
  }

  /** Steps 3 to 5 of the classification, for an actionable value when no override is attached. */
  function Classify(err: RawError): (r: ErrorResponse)
    requires IsActionable(err)
    ensures r.additionalHeaders == None
    ensures r.errors.Some? <==> err.HttpErrorValue?
  {
    if err.HttpErrorValue? then TransformOpenApiError(err)
    else if HasProperty(err, "status") then FromErrorLike(err)
    else ErrorResponse(Int(500), "UNKNOWN_ERROR", if err.ErrorInstance? then err.message else "Unknown error", None, None)
  }

  /** `if (status < 400 || status > 599) status = 500`, with JavaScript's comparisons (false for NaN). */
  function ClampStatus(status: Number): (r: Number)
    ensures status.Int? ==> r.Int? && 400 <= r.value <= 599
    ensures status.Int? && 400 <= status.value <= 599 ==> r == status
    ensures status.Int? && (status.value < 400 || status.value > 599) ==> r == Int(500)
    ensures status.NaN? ==> r == status
  {
    if LessThan(status, 400) || GreaterThan(status, 599) then Int(500) else status
  }

  /** The headers a payload asks for. */
  function HeadersOf(e: ErrorResponse): map<string, string> {
    if e.additionalHeaders.Some? then e.additionalHeaders.value else map[]
  }

  /** The payload as it stands after the in-place writes: headers removed, status clamped. */
  function Sanitise(e: ErrorResponse): (r: ErrorResponse)
    ensures r.additionalHeaders == None && HeadersOf(r) == map[]
    ensures r.status == ClampStatus(e.status)
    ensures r.code == e.code && r.message == e.message && r.errors == e.errors
  {
    e.(additionalHeaders := None, status := ClampStatus(e.status))
  }

  /** The fallback payload: status 500, `UNKNOWN_ERROR`, "Unknown error". */
  const UnknownError: ErrorResponse := ErrorResponse(Int(500), "UNKNOWN_ERROR", "Unknown error", None, None)

  /** What one invocation of the middleware does. */
  datatype Outcome =
    | Forwarded(err: RawError)  // `next(err)`
    | Replied(status: Number, headers: map<string, string>, body: ErrorResponse)  // headers set, then `res.status(status).json(body)`

  /** The whole middleware as a function of the error, the "already sent" flag and the attached override. */
  function Handle(err: RawError, headersSent: bool, override: Option<ErrorResponse>): (r: Outcome)
    ensures r.Forwarded? <==> headersSent || !IsActionable(err)
    ensures r.Forwarded? ==> r.err == err
    ensures r.Replied? ==> r.status == r.body.status && r.body.additionalHeaders == None
    ensures r.Replied? && r.status.Int? ==> 400 <= r.status.value <= 599
    ensures r.Replied? ==> r.headers == if override.Some? then HeadersOf(override.value) else map[]
    ensures r.Replied? && override.Some? ==>
      && r.body.code == override.value.code
      && r.body.message == override.value.message
      && r.body.errors == override.value.errors
  {
    if headersSent || !IsActionable(err) then Forwarded(err)
    else
      var error := if override.Some? then override.value else Classify(err);
      var sanitised := Sanitise(error);
      Replied(sanitised.status, HeadersOf(error), sanitised)
  }

  /**
   * On an actionable value the reply is the chosen payload, sanitised, with the
   * headers it asks for. A step of the proof of `ErrorMiddleware`: it only
   * unfolds `Handle`, so that the method's proof need not.
   */
  lemma HandleReplies(err: RawError, headersSent: bool, override: Option<ErrorResponse>, chosen: ErrorResponse)
    requires !headersSent && IsActionable(err)
    requires chosen == if override.Some? then override.value else Classify(err)
    ensures Handle(err, headersSent, override) == Replied(Sanitise(chosen).status, HeadersOf(chosen), Sanitise(chosen))
  {
  }

  /**
   * The end of `errorMiddleware` once a payload object is chosen: its headers
   * are copied onto the response, then the object is sanitised in place and
   * sent as the status line and body.
   */
  method Reply(error: ErrorObject, res: Response)
    modifies error, res
    ensures error.Value() == Sanitise(old(error.Value()))
    ensures res.headersSent && res.statusCode == error.status && res.body == Some(error.Value())
    ensures res.headers == old(res.headers) + HeadersOf(old(error.Value()))
  {
    var additionalHeaders := error.additionalHeaders;
    if additionalHeaders.Some? {
      res.SetHeaders(additionalHeaders.value);
    }

    error.additionalHeaders := None;
    if LessThan(error.status, 400) || GreaterThan(error.status, 599) {
      error.status := Int(500);
    }

    res.Status(error.status);
    res.Json(error.Value());
  }

  /** `errorMiddleware`. `forwarded` is the value passed to `next`, if the middleware calls it. */
  method ErrorMiddleware(err: RawError, req: Request, res: Response) returns (forwarded: Option<RawError>)
    modifies req, res, req.overriddenError
    ensures match Handle(err, old(res.headersSent), old(req.Override()))
      case Forwarded(e) =>
        && forwarded == Some(e)
        && unchanged(req, res)
        && (old(req.overriddenError) != null ==> unchanged(old(req.overriddenError)))
      case Replied(status, headers, body) =>
        && forwarded == None
        && req.overriddenError == null
        && res.headersSent && res.statusCode == status && res.body == Some(body)
        && res.headers == old(res.headers) + headers
        // the override is the very object written to: it is left equal to the body sent
        && (old(req.overriddenError) != null ==> old(req.overriddenError).Value() == body)
  {
    if res.headersSent || !IsActionable(err) {
      forwarded := Some(err);
      return;
    }

    var error: ErrorObject;
    ghost var chosen: ErrorResponse;
    if req.overriddenError != null {
      error := req.overriddenError;
      chosen := error.Value();
      req.overriddenError := null;
    } else {
      error := new ErrorObject(Classify(err));
      chosen := Classify(err);
    }
    HandleReplies(err, old(res.headersSent), old(req.Override()), chosen);

    Reply(error, res);
    forwarded := None;
  }

  // ---------------------------------------------------------------------
  // Properties of the classification

  /** An attached override decides the reply whatever the actionable error value is. */
  lemma OverrideWins(err1: RawError, err2: RawError, override: ErrorResponse)
    requires IsActionable(err1) && IsActionable(err2)
    ensures Handle(err1, false, Some(override)) == Handle(err2, false, Some(override))
    ensures Handle(err1, false, Some(override)) ==
      Replied(ClampStatus(override.status), HeadersOf(override), Sanitise(override))
  {
  }

  /** Validator errors: a status in the table is sent as it is, with the table's code and message. */
  lemma OpenApiErrorReply(status: int, message: string, errors: seq<ValidationItem>)
    ensures var r := Handle(HttpErrorValue(status, message, errors), false, None);
      && r.Replied?
      && r.headers == map[]
      && r.body.errors == Some(errors)
      && (status in OpenApiStatusTable ==>
            && r.status == Int(status)
            && r.body.code == OpenApiStatusTable[status].code
            && r.body.message == OrDefault(message, OpenApiStatusTable[status].defaultMessage))
      && (status !in OpenApiStatusTable ==>
            && r.status == ClampStatus(Int(status))
            && r.body.code == "UNKNOWN_ERROR"
            && r.body.message == "Unknown error")
  {
  }

  /** The status of an object with a `status` key: 500 when undefined, a number kept as it is. */
  lemma ErrorLikeStatus(err: RawError)
    requires IsActionable(err) && !err.HttpErrorValue? && HasProperty(err, "status")
    ensures Property(err, "status") == Undefined ==> Classify(err).status == Int(500)
    ensures Property(err, "status").Num? ==> Classify(err).status == Property(err, "status").n
  {
    var status := Property(err, "status");
    if status == Undefined {
      assert WithDefault(status, Num(Int(500))) == Num(Int(500));
      NumberTemplateRoundTrip(Num(Int(500)));
    } else if status.Num? {
      assert WithDefault(status, Num(Int(500))) == status;
      NumberTemplateRoundTrip(status);
    }
  }

  /** Objects with a `status` key: `undefined` members take their defaults, the rest are coerced. */
  lemma ErrorLikeObject(err: RawError)
    requires IsActionable(err) && !err.HttpErrorValue? && HasProperty(err, "status")
    ensures var r := Classify(err);
      && r.errors == None
      && (Property(err, "status") == Undefined ==> r.status == Int(500))
      && (Property(err, "status").Num? ==> r.status == Property(err, "status").n)
      && (Property(err, "code") == Undefined ==> r.code == "UNKNOWN_ERROR")
      && (Property(err, "code").Str? ==> r.code == Property(err, "code").s)
      && (Property(err, "message") == Undefined ==> r.message == "Unknown error")
      && (Property(err, "message").Str? ==> r.message == Property(err, "message").s)
  {
    ErrorLikeStatus(err);
  }

  /** A numeric-string status such as "400" is sent as the number it spells. */
  lemma NumericStringStatus(err: RawError, i: int)
    requires IsActionable(err) && !err.HttpErrorValue? && HasProperty(err, "status")
    requires Property(err, "status") == Str(NumberToString(Int(i)))
    ensures Classify(err).status == Int(i)
  {
    NumberStringRoundTrip(Int(i));
  }

  /**
   * `{status}` alone: code and message take their defaults, and a missing or
   * out-of-range status is sent as 500 (the tests' 500, undefined, 300 and 600 rows).
   */
  lemma StatusOnlyObject(status: JsValue)
    requires status == Undefined || status.Num?
    ensures var sent := ClampStatus(if status == Undefined then Int(500) else status.n);
      Handle(PlainObject(map["status" := status]), false, None) == Replied(sent, map[], UnknownError.(status := sent))
    ensures status.Num? && status.n.Int? && (status.n.value < 400 || status.n.value > 599) ==>
      Handle(PlainObject(map["status" := status]), false, None).status == Int(500)
  {
    ErrorLikeObject(PlainObject(map["status" := status]));
  }

  /** Objects without a `status` key are a 500 `UNKNOWN_ERROR`, keeping an `Error`'s message. */
  lemma ObjectWithoutStatus(err: RawError)
    requires IsActionable(err) && !err.HttpErrorValue? && !HasProperty(err, "status")
    ensures Handle(err, false, None) ==
      Replied(Int(500), map[],
              ErrorResponse(Int(500), "UNKNOWN_ERROR", if err.ErrorInstance? then err.message else "Unknown error", None, None))
  {
  }

  /** The members of a payload object besides `status`, `code` and `message`. */
  function OptionalMembers(e: ErrorResponse): (m: map<string, JsValue>)
    ensures m.Keys <= {"errors", "additionalHeaders"}
  {
    var withErrors: map<string, JsValue> := if e.errors.Some? then map["errors" := Obj] else map[];
    if e.additionalHeaders.Some? then withErrors["additionalHeaders" := Obj] else withErrors
  }

  /** A payload written out as a plain object, as a producer of payloads hands it to `next`. */
  function AsPlainObject(e: ErrorResponse): (r: RawError)
    ensures r.PlainObject?
    ensures "status" in r.props && "code" in r.props && "message" in r.props
    ensures r.props["status"] == Num(e.status) && r.props["code"] == Str(e.code) && r.props["message"] == Str(e.message)
  {
    PlainObject(OptionalMembers(e) + map["status" := Num(e.status), "code" := Str(e.code), "message" := Str(e.message)])
  }

  /** Sending a payload object through the error channel reproduces its status, code and message. */
  lemma PlainObjectRoundTrip(e: ErrorResponse)
    ensures Classify(AsPlainObject(e)) == e.(errors := None, additionalHeaders := None)
  {
    var err := AsPlainObject(e);
    assert Property(err, "status") == Num(e.status);
    ErrorLikeObject(err);
  }

  /** Sanitising twice is sanitising once: a reused override object asks for no headers the second time. */
  lemma SanitiseIdempotent(e: ErrorResponse)
    ensures Sanitise(Sanitise(e)) == Sanitise(e)
    ensures HeadersOf(Sanitise(e)) == map[]
  {
  }

  // ---------------------------------------------------------------------
  // Scenarios over the request and response objects

  /**
   * An override is consumed by the first error: the same request object, paired
   * with a fresh response, has its next error classified.
   */
  method OverrideUsedOnce(override: ErrorResponse, message: string)
    returns (first: Option<ErrorResponse>, second: Option<ErrorResponse>)
    ensures first == Some(Sanitise(override))
    ensures second == Some(ErrorResponse(Int(500), "UNKNOWN_ERROR", message, None, None))
  {
    var attached := new ErrorObject(override);
    var req := new Request(attached);
    var err := ErrorInstance(message, map[]);
    var res1 := new Response();
    var _ := ErrorMiddleware(err, req, res1);
    first := res1.body;
    var res2 := new Response();
    var _ := ErrorMiddleware(err, req, res2);
    second := res2.body;
  }

  /**
   * One override object attached to two requests: the first use removes its
   * `additionalHeaders` in place, so the second reply carries no extra header.
   */
  method SharedOverrideObject(override: ErrorResponse, err: RawError)
    returns (firstHeaders: map<string, string>, secondHeaders: map<string, string>)
    requires IsActionable(err)
    ensures firstHeaders == HeadersOf(override)
    ensures secondHeaders == map[]
  {
    var shared := new ErrorObject(override);
    var req1 := new Request(shared);
    var res1 := new Response();
    var _ := ErrorMiddleware(err, req1, res1);
    firstHeaders := res1.headers;
    var req2 := new Request(shared);
    var res2 := new Response();
    var _ := ErrorMiddleware(err, req2, res2);
    secondHeaders := res2.headers;
  }
}
