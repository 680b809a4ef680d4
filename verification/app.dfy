/** The web layer's exception handlers (`src/service/app.py`): which HTTP
    status each exception gets, and the JSON error envelope
    `{"error": {httpcode, httpstatus, time, appcode?, apperror?, message?,
    request_validation_detail?}}`. The clock is a parameter. */
module App {
  import opened Wrappers
  import opened Strings
  import opened OrderedMaps
  import opened Values
  import opened Errors

  /** `http.client.responses[code]`: the reason phrases of section 15 of
      RFC 9110, plus the registered codes Python's `http.HTTPStatus` also
      lists (102, 103, 207, 208, 226, 418, 423-425, 428, 429, 431, 451,
      506-508, 510, 511). Any other code is missing from the table. */
  function ReasonPhrase(code: int): Option<string> {
    match code
    case 100 => Some("Continue")
    case 101 => Some("Switching Protocols")
    case 102 => Some("Processing")
    case 103 => Some("Early Hints")
    case 200 => Some("OK")
    case 201 => Some("Created")
    case 202 => Some("Accepted")
    case 203 => Some("Non-Authoritative Information")
    case 204 => Some("No Content")
    case 205 => Some("Reset Content")
    case 206 => Some("Partial Content")
    case 207 => Some("Multi-Status")
    case 208 => Some("Already Reported")
    case 226 => Some("IM Used")
    case 300 => Some("Multiple Choices")
    case 301 => Some("Moved Permanently")
    case 302 => Some("Found")
    case 303 => Some("See Other")
    case 304 => Some("Not Modified")
    case 305 => Some("Use Proxy")
    case 307 => Some("Temporary Redirect")
    case 308 => Some("Permanent Redirect")
    case 400 => Some("Bad Request")
    case 401 => Some("Unauthorized")
    case 402 => Some("Payment Required")
    case 403 => Some("Forbidden")
    case 404 => Some("Not Found")
    case 405 => Some("Method Not Allowed")
    case 406 => Some("Not Acceptable")
    case 407 => Some("Proxy Authentication Required")
    case 408 => Some("Request Timeout")
    case 409 => Some("Conflict")
    case 410 => Some("Gone")
    case 411 => Some("Length Required")
    case 412 => Some("Precondition Failed")
    case 413 => Some("Content Too Large")
    case 414 => Some("URI Too Long")
    case 415 => Some("Unsupported Media Type")
    case 416 => Some("Range Not Satisfiable")
    case 417 => Some("Expectation Failed")
    case 418 => Some("I'm a Teapot")
    case 421 => Some("Misdirected Request")
    case 422 => Some("Unprocessable Content")
    case 423 => Some("Locked")
    case 424 => Some("Failed Dependency")
    case 425 => Some("Too Early")
    case 426 => Some("Upgrade Required")
    case 428 => Some("Precondition Required")
    case 429 => Some("Too Many Requests")
    case 431 => Some("Request Header Fields Too Large")
    case 451 => Some("Unavailable For Legal Reasons")
    case 500 => Some("Internal Server Error")
    case 501 => Some("Not Implemented")
    case 502 => Some("Bad Gateway")
    case 503 => Some("Service Unavailable")
    case 504 => Some("Gateway Timeout")
    case 505 => Some("HTTP Version Not Supported")
    case 506 => Some("Variant Also Negotiates")
    case 507 => Some("Insufficient Storage")
    case 508 => Some("Loop Detected")
    case 510 => Some("Not Extended")
    case 511 => Some("Network Authentication Required")
    case _ => None
  }

  /** The fields an error envelope may have, in the order they are added. */
  datatype Field = HttpCode | HttpStatus | Time | AppCode | AppLabel | Message | RequestValidationDetail

  /** The JSON key of each field. */
  function FieldName(f: Field): string {
    match f
    case HttpCode => "httpcode"
    case HttpStatus => "httpstatus"
    case Time => "time"
    case AppCode => "appcode"
    case AppLabel => "apperror"
    case Message => "message"
    case RequestValidationDetail => "request_validation_detail"
  }

  /** A JSON error response: the HTTP status and the object under `"error"`. */
  datatype Response = Response(status: int, content: OMap<Field, Value>)

  /** The response body `{"error": content}` as a JSON value. */
  function Body(r: Response): Value {
    Dict([("error", Dict(seq(|r.content|, i requires 0 <= i < |r.content| =>
      (FieldName(r.content[i].0), r.content[i].1))))])
  }

  /** What `_format_error` promises of the envelope it builds. */
  predicate IsEnvelope(r: Response, status: int, message: Option<string>, kind: Option<ErrorType>,
                       detail: seq<Value>, now: string)
  {
    && ReasonPhrase(status).Some?
    && EnvelopeWith(r, status, ReasonPhrase(status).value, message, kind, detail, now)
  }

  predicate EnvelopeWith(r: Response, status: int, phrase: string, message: Option<string>,
                         kind: Option<ErrorType>, detail: seq<Value>, now: string)
  {
    && r.status == status
    && OrderedFields(r.content)
    && HeaderFields(r.content, status, phrase, now)
    && AppFields(r.content, kind)
    && MessageFields(r.content, message)
    && DetailFields(r.content, detail)
  }

  /** Each field occurs once, in the order `_format_error` adds them, and the
      three mandatory fields come first. */
  predicate OrderedFields(c: OMap<Field, Value>) {
    && WellFormed(c) && InFieldOrder(Keys(c))
    && |c| >= 3 && Keys(c)[..3] == [HttpCode, HttpStatus, Time]
  }

  predicate HeaderFields(c: OMap<Field, Value>, status: int, phrase: string, now: string) {
    && Lookup(c, HttpCode) == Some(Int(status))
    && Lookup(c, HttpStatus) == Some(Str(phrase))
    && Lookup(c, Time) == Some(Str(now))
  }

  /** `appcode` and `apperror` are present exactly when an error kind is given. */
  predicate AppFields(c: OMap<Field, Value>, kind: Option<ErrorType>) {
    && (AppCode in Keys(c) <==> kind.Some?)
    && (AppLabel in Keys(c) <==> kind.Some?)
    && (kind.Some? ==> Lookup(c, AppCode) == Some(Int(Code(kind.value))))
    && (kind.Some? ==> Lookup(c, AppLabel) == Some(Str(Label(kind.value))))
  }

  /** `message` is present exactly when a non-empty message is given. */
  predicate MessageFields(c: OMap<Field, Value>, message: Option<string>) {
    && (Message in Keys(c) <==> message.Some? && message.value != "")
    && (Message in Keys(c) ==> Lookup(c, Message) == Some(Str(message.value)))
  }

  /** `request_validation_detail` is present exactly when there are details. */
  predicate DetailFields(c: OMap<Field, Value>, detail: seq<Value>) {
    && (RequestValidationDetail in Keys(c) <==> detail != [])
    && (detail != [] ==> Lookup(c, RequestValidationDetail) == Some(List(detail)))
  }

  /** `_format_error`. The three mandatory fields come first; each later
      `content.update` adds fresh keys, so it appends. A status code missing
      from the reason-phrase table makes `responses[status_code]` raise
      `KeyError`. */
  function FormatError(status: int, message: Option<string>, kind: Option<ErrorType>,
                       detail: seq<Value>, now: string): (r: Result<Response, Raised>)
    ensures r.Failure? <==> ReasonPhrase(status).None?
    ensures r.Failure? ==> r.error == Other("KeyError", [Int(status)])
    ensures r.Success? ==> IsEnvelope(r.value, status, message, kind, detail, now)
  {
    match ReasonPhrase(status)
    case None => Failure(Other("KeyError", [Int(status)]))
    case Some(phrase) =>
      var app := if kind.Some? then Some((Int(Code(kind.value)), Str(Label(kind.value)))) else None;
      var msg := if message.Some? && message.value != "" then Some(Str(message.value)) else None;
      var det := if detail != [] then Some(List(detail)) else None;
      AssembleOrdered(Int(status), Str(phrase), Str(now), app, msg, det);
      AssembleHeader(Int(status), Str(phrase), Str(now), app, msg, det);
      AssembleApp(Int(status), Str(phrase), Str(now), app, msg, det);
      AssembleMessage(Int(status), Str(phrase), Str(now), app, msg, det);
      AssembleDetail(Int(status), Str(phrase), Str(now), app, msg, det);
      Success(Response(status, Assemble(Int(status), Str(phrase), Str(now), app, msg, det)))
  }

  /** The envelope's content: the three mandatory fields, then each optional
      group when it is given. */
  function Assemble(code: Value, phrase: Value, time: Value, app: Option<(Value, Value)>,
                    message: Option<Value>, detail: Option<Value>): OMap<Field, Value>
  {
    Head(code, phrase, time) + AppGroup(app) + MessageGroup(message) + DetailGroup(detail)
  }

  function Head(code: Value, phrase: Value, time: Value): (c: OMap<Field, Value>)
    ensures Keys(c) == [HttpCode, HttpStatus, Time]
  {
    [(HttpCode, code), (HttpStatus, phrase), (Time, time)]
  }

  function AppGroup(app: Option<(Value, Value)>): (c: OMap<Field, Value>)
    ensures Keys(c) == if app.Some? then [AppCode, AppLabel] else []
  {
    if app.Some? then [(AppCode, app.value.0), (AppLabel, app.value.1)] else []
  }

  function MessageGroup(message: Option<Value>): (c: OMap<Field, Value>)
    ensures Keys(c) == if message.Some? then [Message] else []
  {
    if message.Some? then [(Message, message.value)] else []
  }

  function DetailGroup(detail: Option<Value>): (c: OMap<Field, Value>)
    ensures Keys(c) == if detail.Some? then [RequestValidationDetail] else []
  {
    if detail.Some? then [(RequestValidationDetail, detail.value)] else []
  }

  /** The position of each field in the order `_format_error` adds them. */
  function Rank(f: Field): nat {
    match f
    case HttpCode => 0
    case HttpStatus => 1
    case Time => 2
    case AppCode => 3
    case AppLabel => 4
    case Message => 5
    case RequestValidationDetail => 6
  }

  /** The keys appear in the order `_format_error` adds them. */
  predicate InFieldOrder(ks: seq<Field>) {
    forall i, j :: 0 <= i < j < |ks| ==> Rank(ks[i]) < Rank(ks[j])
  }

  predicate RanksWithin(ks: seq<Field>, lo: nat, hi: nat) {
    forall i :: 0 <= i < |ks| ==> lo <= Rank(ks[i]) < hi
  }

  lemma InFieldOrderAppend(xs: seq<Field>, ys: seq<Field>, mid: nat, hi: nat)
    requires InFieldOrder(xs) && InFieldOrder(ys)
    requires mid <= hi && RanksWithin(xs, 0, mid) && RanksWithin(ys, mid, hi)
    ensures InFieldOrder(xs + ys) && RanksWithin(xs + ys, 0, hi)
  {
    forall i, j | 0 <= i < j < |xs + ys| ensures Rank((xs + ys)[i]) < Rank((xs + ys)[j]) {
      if j < |xs| {
      } else if i >= |xs| {
        assert (xs + ys)[i] == ys[i - |xs|];
      } else {
        assert (xs + ys)[j] == ys[j - |xs|];
      }
    }
    forall i | 0 <= i < |xs + ys| ensures 0 <= Rank((xs + ys)[i]) < hi {
      if i >= |xs| {
        assert (xs + ys)[i] == ys[i - |xs|];
      }
    }
  }

  lemma InFieldOrderDistinct(ks: seq<Field>)
    requires InFieldOrder(ks)
    ensures Distinct(ks)
  {
    forall i, j | 0 <= i < j < |ks| ensures ks[i] != ks[j] {
      assert Rank(ks[i]) < Rank(ks[j]);
    }
  }

  /** A field outside the first part is looked up in the rest. */
  lemma LookupPast(p: OMap<Field, Value>, q: OMap<Field, Value>, f: Field)
    requires f !in Keys(p)
    ensures (f in Keys(p + q) <==> f in Keys(q)) && Lookup(p + q, f) == Lookup(q, f)
  {
    KeysAppend(p, q);
    LookupAppend(p, q, f);
  }

  /** A field of the first part is looked up there. */
  lemma LookupBefore(p: OMap<Field, Value>, q: OMap<Field, Value>, f: Field)
    requires f in Keys(p)
    ensures f in Keys(p + q) && Lookup(p + q, f) == Lookup(p, f)
  {
    KeysAppend(p, q);
    LookupAppend(p, q, f);
  }

  /** The keys `_format_error` writes, given which optional groups are present. */
  function FieldsPresent(app: bool, message: bool, detail: bool): seq<Field> {
    [HttpCode, HttpStatus, Time]
    + (if app then [AppCode, AppLabel] else [])
    + (if message then [Message] else [])
    + (if detail then [RequestValidationDetail] else [])
  }

  lemma AssembleKeys(code: Value, phrase: Value, time: Value, app: Option<(Value, Value)>,
                     message: Option<Value>, detail: Option<Value>)
    ensures Keys(Assemble(code, phrase, time, app, message, detail))
         == FieldsPresent(app.Some?, message.Some?, detail.Some?)
  {
    var h, a, m, d := Head(code, phrase, time), AppGroup(app), MessageGroup(message), DetailGroup(detail);
    KeysAppend(h, a);
    KeysAppend(h + a, m);
    KeysAppend(h + a + m, d);
  }

  lemma FieldsPresentOrdered(app: bool, message: bool, detail: bool)
    ensures var ks := FieldsPresent(app, message, detail);
      InFieldOrder(ks) && Distinct(ks) && |ks| >= 3 && ks[..3] == [HttpCode, HttpStatus, Time]
  {
    var kh: seq<Field> := [HttpCode, HttpStatus, Time];
    var ka: seq<Field> := if app then [AppCode, AppLabel] else [];
    var km: seq<Field> := if message then [Message] else [];
    var kd: seq<Field> := if detail then [RequestValidationDetail] else [];
    GroupRanks(app, message, detail);
    InFieldOrderAppend(kh, ka, 3, 5);
    InFieldOrderAppend(kh + ka, km, 5, 6);
    InFieldOrderAppend(kh + ka + km, kd, 6, 7);
    var ks := kh + ka + km + kd;
    assert FieldsPresent(app, message, detail) == ks;
    InFieldOrderDistinct(ks);
    TakeOfAppend(kh + ka + km, kd, 3);
    TakeOfAppend(kh + ka, km, 3);
    TakeOfAppend(kh, ka, 3);
    assert kh[..3] == kh;
  }

  lemma TakeOfAppend(p: seq<Field>, q: seq<Field>, n: nat)
    requires n <= |p|
    ensures (p + q)[..n] == p[..n]
  {
  }

  /** Each group of fields is in order and ranks within its own band. */
  lemma GroupRanks(app: bool, message: bool, detail: bool)
    ensures InFieldOrder([HttpCode, HttpStatus, Time]) && RanksWithin([HttpCode, HttpStatus, Time], 0, 3)
    ensures var ka: seq<Field> := if app then [AppCode, AppLabel] else [];
      InFieldOrder(ka) && RanksWithin(ka, 3, 5)
    ensures var km: seq<Field> := if message then [Message] else [];
      InFieldOrder(km) && RanksWithin(km, 5, 6)
    ensures var kd: seq<Field> := if detail then [RequestValidationDetail] else [];
      InFieldOrder(kd) && RanksWithin(kd, 6, 7)
  {
  }

  /** The assembled content keeps its fields in order, once each. */
  lemma AssembleOrdered(code: Value, phrase: Value, time: Value, app: Option<(Value, Value)>,
                        message: Option<Value>, detail: Option<Value>)
    ensures OrderedFields(Assemble(code, phrase, time, app, message, detail))
  {
    AssembleKeys(code, phrase, time, app, message, detail);
    FieldsPresentOrdered(app.Some?, message.Some?, detail.Some?);
  }

  /** The mandatory fields hold the values given for them. */
  lemma AssembleHeader(code: Value, phrase: Value, time: Value, app: Option<(Value, Value)>,
                       message: Option<Value>, detail: Option<Value>)
    ensures var c := Assemble(code, phrase, time, app, message, detail);
      && Lookup(c, HttpCode) == Some(code)
      && Lookup(c, HttpStatus) == Some(phrase)
      && Lookup(c, Time) == Some(time)
  {
    var h, a, m, d := Head(code, phrase, time), AppGroup(app), MessageGroup(message), DetailGroup(detail);
    LookupHead(h, a, m, d, HttpCode);
    LookupHead(h, a, m, d, HttpStatus);
    LookupHead(h, a, m, d, Time);
    assert Lookup(h, HttpCode) == Some(code);
    assert Lookup(h, HttpStatus) == Some(phrase);
    assert Lookup(h, Time) == Some(time);
  }

  lemma LookupHead(h: OMap<Field, Value>, a: OMap<Field, Value>, m: OMap<Field, Value>, d: OMap<Field, Value>, f: Field)
    requires f in Keys(h)
    ensures Lookup(h + a + m + d, f) == Lookup(h, f)
  {
    KeysAppend(h, a);
    KeysAppend(h + a, m);
    LookupBefore(h, a, f);
    LookupBefore(h + a, m, f);
    LookupBefore(h + a + m, d, f);
  }

  /** `appcode` and `apperror` hold the values given for them, and are
      absent when none are given. */
  lemma AssembleApp(code: Value, phrase: Value, time: Value, app: Option<(Value, Value)>,
                         message: Option<Value>, detail: Option<Value>)
    ensures var c := Assemble(code, phrase, time, app, message, detail);
      && Lookup(c, AppCode) == (if app.Some? then Some(app.value.0) else None)
      && Lookup(c, AppLabel) == (if app.Some? then Some(app.value.1) else None)
  {
    if app.Some? {
      AppPresent(code, phrase, time, app, message, detail, AppCode);
      AppPresent(code, phrase, time, app, message, detail, AppLabel);
    } else {
      AssembleKeys(code, phrase, time, app, message, detail);
    }
  }

  lemma AppPresent(code: Value, phrase: Value, time: Value, app: Option<(Value, Value)>,
                         message: Option<Value>, detail: Option<Value>, f: Field)
    requires app.Some? && (f == AppCode || f == AppLabel)
    ensures Lookup(Assemble(code, phrase, time, app, message, detail), f) == Lookup(AppGroup(app), f)
  {
    var h, a, m, d := Head(code, phrase, time), AppGroup(app), MessageGroup(message), DetailGroup(detail);
    KeysAppend(h, a);
    KeysAppend(h + a, m);
    LookupPast(h, a, f);
    LookupBefore(h + a, m, f);
    LookupBefore(h + a + m, d, f);
  }

  /** `message` holds the value given for it, and is absent when none is. */
  lemma AssembleMessage(code: Value, phrase: Value, time: Value, app: Option<(Value, Value)>,
                         message: Option<Value>, detail: Option<Value>)
    ensures Lookup(Assemble(code, phrase, time, app, message, detail), Message) == message
  {
    var h, a, m, d := Head(code, phrase, time), AppGroup(app), MessageGroup(message), DetailGroup(detail);
    KeysAppend(h, a);
    KeysAppend(h + a, m);
    LookupPast(h + a, m, Message);
    if message.Some? {
      assert Lookup(m, Message) == message;
      LookupBefore(h + a + m, d, Message);
    } else {
      assert Keys(h + a + m) == Keys(h + a);
      LookupPast(h + a + m, d, Message);
    }
  }

  /** `request_validation_detail` holds the value given for it, and is
      absent when none is. */
  lemma AssembleDetail(code: Value, phrase: Value, time: Value, app: Option<(Value, Value)>,
                         message: Option<Value>, detail: Option<Value>)
    ensures Lookup(Assemble(code, phrase, time, app, message, detail), RequestValidationDetail) == detail
  {
    var h, a, m, d := Head(code, phrase, time), AppGroup(app), MessageGroup(message), DetailGroup(detail);
    KeysAppend(h, a);
    KeysAppend(h + a, m);
    LookupPast(h + a + m, d, RequestValidationDetail);
  }

  /** `_handle_app_exception`: authentication errors give 401,
      `UnauthorizedError` 403, no-data errors 404 and every other
      `DataverseError` 400. */
  function StatusFor(cls: ErrorClass): (code: int)
    ensures code == 401 <==> CategoryOf(cls) == AuthenticationCategory
    ensures code == 403 <==> IsSubclass(cls, UnauthorizedErrorClass)
    ensures code == 404 <==> CategoryOf(cls) == NotFoundCategory
    ensures code == 400 <==> CategoryOf(cls) == OtherCategory && !IsSubclass(cls, UnauthorizedErrorClass)
  {
    if IsSubclass(cls, AuthenticationErrorClass) then 401
    else if IsSubclass(cls, UnauthorizedErrorClass) then 403
    else if IsSubclass(cls, NoDataExceptionClass) then 404
    else 400
  }

  /** `_handle_app_exception`: the envelope carries the error's code and
      label and the raw, unstripped `message` attribute. */
  function HandleAppException(e: DataverseError, now: string): (r: Response)
    ensures IsEnvelope(r, StatusFor(e.cls), e.message, Some(e.kind), [], now)
  {
    FormatError(StatusFor(e.cls), e.message, Some(e.kind), [], now).value
  }

  /** `_handle_fastapi_validation_exception`: 400 with
      `REQUEST_VALIDATION_FAILED`, no message, and the validation errors. */
  function HandleValidationException(details: seq<Value>, now: string): (r: Response)
    ensures IsEnvelope(r, 400, None, Some(RequestValidationFailed), details, now)
  {
    FormatError(400, None, Some(RequestValidationFailed), details, now).value
  }

  /** `_handle_http_exception`: the exception's own status, `str(detail)` as
      the message, and no application code. */
  function HandleHttpException(status: int, detail: string, now: string): (r: Result<Response, Raised>)
    ensures r.Success? <==> ReasonPhrase(status).Some?
    ensures r.Success? ==> IsEnvelope(r.value, status, Some(detail), None, [], now)
  {
    FormatError(status, Some(detail), None, [], now)
  }

  /** The message `_handle_general_exception` passes on: the sole argument,
      when there is exactly one and it is a `str`. */
  function GeneralMessage(args: seq<Value>): (m: Option<string>)
    ensures m.Some? <==> |args| == 1 && args[0].Str?
    ensures m.Some? ==> m.value == args[0].s
  {
    if |args| == 1 && args[0].Str? then Some(args[0].s) else None
  }

  /** `_handle_general_exception`: always 500; a message appears only for a
      single non-empty `str` argument. */
  function HandleGeneralException(args: seq<Value>, now: string): (r: Response)
    ensures IsEnvelope(r, 500, GeneralMessage(args), None, [], now)
    ensures Message in Keys(r.content) <==> |args| == 1 && args[0].Str? && args[0].s != ""
  {
    FormatError(500, GeneralMessage(args), None, [], now).value
  }

  /** The exception-handler table of `create_app`: each kind of raised
      exception goes to its handler; anything not more specific is a 500. */
  function HandleException(x: Raised, now: string): (r: Result<Response, Raised>)
    ensures x.AppError? ==> r.Success? && r.value.status == StatusFor(x.err.cls)
    ensures x.ValidationFailure? ==> r.Success? && r.value.status == 400
    ensures x.HttpError? ==> (r.Success? <==> ReasonPhrase(x.status).Some?)
    ensures x.HttpError? && r.Success? ==> r.value.status == x.status
    ensures x.Other? ==> r.Success? && r.value.status == 500
  {
    match x
    case AppError(e) => Success(HandleAppException(e, now))
    case ValidationFailure(details) => Success(HandleValidationException(details, now))
    case HttpError(status, detail) => HandleHttpException(status, detail, now)
    case Other(_, args) => Success(HandleGeneralException(args, now))
  }

  /** Because the handler passes the raw `message` attribute, a
      whitespace-only message is absent from the exception's argument but
      still appears in the envelope. */
  lemma WhitespaceMessageStillShown(cls: ErrorClass, m: string, now: string)
    requires FixedKind(cls).Some?
    requires m != "" && AllSpace(m)
    ensures NewFixedError(cls, Some(m)).arg == None
    ensures Lookup(HandleAppException(NewFixedError(cls, Some(m)), now).content, Message) == Some(Str(m))
  {
  }
}
