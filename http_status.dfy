/** The status table and the request-aware envelope builder
    (lib/httpStatus.js). What the source hands to `res.json` or does by
    calling `next()` is returned here as an `Outcome`. */
module HttpStatus {
  import opened JsModel
  import IpAddress

  /** The 14 supported statuses. */
  datatype Status =
    | Ok | Created | NoContent | Found
    | BadRequest | Unauthorized | Forbidden | NotFound | Conflict | UnprocessableEntity
    | ServerError | NotImplemented | BadGateway | ServiceUnavailable

  /** The four statuses whose per-status method takes no error argument. */
  predicate IsSuccessStatus(s: Status) {
    s.Ok? || s.Created? || s.NoContent? || s.Found?
  }

  /** The status getters `statusOk` … `statusServiceUnavailable`. Success
      statuses lie in the 2xx and 3xx classes, the others in 4xx and 5xx. */
  function Code(s: Status): (c: int)
    ensures 200 <= c < 600
    ensures IsSuccessStatus(s) <==> c < 400
  {
    match s
    case Ok => 200
    case Created => 201
    case NoContent => 204
    case Found => 302
    case BadRequest => 400
    case Unauthorized => 401
    case Forbidden => 403
    case NotFound => 404
    case Conflict => 409
    case UnprocessableEntity => 422
    case ServerError => 500
    case NotImplemented => 501
    case BadGateway => 502
    case ServiceUnavailable => 503
  }

  /** The name getters `statusNameOk` … `statusNameServiceUnavailable`:
      the library's own display strings, never empty. */
  function Name(s: Status): (n: string)
    ensures |n| > 0
  {
    match s
    case Ok => "Ok"
    case Created => "Created"
    case NoContent => "No Content"
    case Found => "Found"
    case BadRequest => "BadRequest"
    case Unauthorized => "Unauthorized"
    case Forbidden => "Forbidden"
    case NotFound => "Not Found"
    case Conflict => "Conflict"
    case UnprocessableEntity => "Unprocessable Entity"
    case ServerError => "Internal Server Error"
    case NotImplemented => "Not Implemented"
    case BadGateway => "Bad Gateway"
    case ServiceUnavailable => "Service Unavailable"
  }

  /** The fixed codes of the status getters. */
  lemma CodeTable()
    ensures Code(Ok) == 200 && Code(Created) == 201 && Code(NoContent) == 204 && Code(Found) == 302
    ensures Code(BadRequest) == 400 && Code(Unauthorized) == 401 && Code(Forbidden) == 403
    ensures Code(NotFound) == 404 && Code(Conflict) == 409 && Code(UnprocessableEntity) == 422
    ensures Code(ServerError) == 500 && Code(NotImplemented) == 501
    ensures Code(BadGateway) == 502 && Code(ServiceUnavailable) == 503
  {
  }

  /** The fixed strings of the name getters, spelling and spacing included. */
  lemma NameTable()
    ensures Name(Ok) == "Ok" && Name(Created) == "Created" && Name(NoContent) == "No Content"
    ensures Name(Found) == "Found" && Name(BadRequest) == "BadRequest"
    ensures Name(Unauthorized) == "Unauthorized" && Name(Forbidden) == "Forbidden"
    ensures Name(NotFound) == "Not Found" && Name(Conflict) == "Conflict"
    ensures Name(UnprocessableEntity) == "Unprocessable Entity"
    ensures Name(ServerError) == "Internal Server Error" && Name(NotImplemented) == "Not Implemented"
    ensures Name(BadGateway) == "Bad Gateway" && Name(ServiceUnavailable) == "Service Unavailable"
  {
  }

  /** No two statuses share a code: the code identifies the status. */
  lemma CodeInjective(s: Status, t: Status)
    ensures Code(s) == Code(t) ==> s == t
  {
  }

  /** The response record. `timestamp` is the clock value of construction,
      supplied by the caller in place of the foreign clock. */
  datatype UtcDate = UtcDate(epochMillis: int)

  datatype Envelope = Envelope(
    status: int,
    success: bool,
    ip: JsValue,
    timestamp: UtcDate,
    error: JsValue,
    value: JsValue)

  /** The envelope invariant: `success` is derived from `status` alone. */
  predicate WellFormed(e: Envelope) {
    e.success == (e.status < 400)
  }

  /** What a handler does with the response: hand an envelope to `res.json`,
      or pass control on with `next()`. */
  datatype Outcome = Emit(envelope: Envelope) | CallNext

  /** `assembleJsonResponseWithError`: the record is well formed and carries
      status, address, error and value exactly as given, stamped `now`. */
  function AssembleJsonResponseWithError(status: int, ip: JsValue, value: JsValue, error: JsValue, now: UtcDate): (e: Envelope)
    ensures WellFormed(e)
    ensures e.success <==> status < 400
    ensures e.status == status && e.ip == ip && e.error == error && e.value == value
    ensures e.timestamp == now
  {
    Envelope(status, status < 400, ip, now, error, value)
  }

  /** `jsonResponse`: an alias of the builder, with the same record-level
      guarantees. */
  function JsonResponse(status: int, ip: JsValue, value: JsValue, error: JsValue, now: UtcDate): (e: Envelope)
    ensures WellFormed(e)
    ensures e.status == status && e.ip == ip && e.error == error && e.value == value
    ensures e.timestamp == now
  {
    AssembleJsonResponseWithError(status, ip, value, error, now)
  }

  /** The module-local `response`: builds the record with the address taken
      from the request and emits it. */
  function Response(req: Request, status: int, value: JsValue, error: JsValue, now: UtcDate): (o: Outcome)
    ensures o.Emit? && WellFormed(o.envelope)
    ensures o.envelope.ip == IpAddress.ClientIp(req)
    ensures o.envelope.status == status && o.envelope.value == value && o.envelope.error == error
    ensures o.envelope.timestamp == now
  {
    Emit(JsonResponse(status, IpAddress.ClientIp(req), value, error, now))
  }

  /** `fromHttpStatusResponse`: re-emits a record's status, value and error;
      the address is recomputed from the request and the record's own `ip`,
      `success` and `timestamp` play no part. */
  function FromHttpStatusResponse(req: Request, record: Envelope, now: UtcDate): (o: Outcome)
    ensures o.Emit? && WellFormed(o.envelope)
    ensures o.envelope.status == record.status
    ensures o.envelope.value == record.value && o.envelope.error == record.error
    ensures o.envelope.ip == IpAddress.ClientIp(req) && o.envelope.timestamp == now
  {
    Response(req, record.status, record.value, record.error, now)
  }

  /** Re-emitting depends on nothing in the record but status, value and error. */
  lemma FromHttpStatusResponseIgnoresIpAndTimestamp(req: Request, record: Envelope, ip: JsValue, success: bool, timestamp: UtcDate, now: UtcDate)
    ensures FromHttpStatusResponse(req, record.(ip := ip, success := success, timestamp := timestamp), now)
         == FromHttpStatusResponse(req, record, now)
  {
  }

  /** The 14 per-status methods `ok` … `serviceUnavailable`, selected by `s`.
      `value` is a default parameter whose default is the status name; the
      four success methods declare no error parameter, so any error argument
      is dropped and the record's error is undefined. */
  function Respond(s: Status, req: Request, value: JsValue, error: JsValue, now: UtcDate): (o: Outcome)
    ensures o.Emit? && WellFormed(o.envelope)
    ensures o.envelope.status == Code(s)
    ensures o.envelope.success <==> IsSuccessStatus(s)
    ensures value.Undefined? ==> o.envelope.value == Str(Name(s))
    ensures !value.Undefined? ==> o.envelope.value == value
    ensures IsSuccessStatus(s) ==> o.envelope.error == Undefined
    ensures !IsSuccessStatus(s) ==> o.envelope.error == error
    ensures o.envelope.ip == IpAddress.ClientIp(req) && o.envelope.timestamp == now
  {
    var v := DefaultParam(value, Str(Name(s)));
    if IsSuccessStatus(s) then Response(req, Code(s), v, Undefined, now)
    else Response(req, Code(s), v, error, now)
  }

  /** The two default-value scenarios of the methods: an omitted value
      becomes the status name, and an explicit falsy value such as "" or 0
      is emitted unchanged. */
  lemma RespondKeepsFalsyValues(s: Status, req: Request, value: JsValue, error: JsValue, now: UtcDate)
    requires !IsTruthy(value) && !value.Undefined?
    ensures Respond(s, req, value, error, now).envelope.value == value
    ensures IsTruthy(Respond(s, req, Undefined, error, now).envelope.value)
  {
  }

  /** `ignoreFavicon`: a request for exactly "/favicon.ico" gets the
      noContent envelope and `next` is not called; every other request
      calls `next` and nothing is emitted. */
  function IgnoreFavicon(req: Request, now: UtcDate): (o: Outcome)
    ensures o.Emit? <==> req.originalUrl == Str("/favicon.ico")
    ensures o.CallNext? <==> req.originalUrl != Str("/favicon.ico")
    ensures o.Emit? ==> o.envelope == Envelope(204, true, IpAddress.ClientIp(req), now, Undefined, Str("No Content"))
  {
    if req.originalUrl == Str("/favicon.ico") then Respond(NoContent, req, Undefined, Undefined, now)
    else CallNext
  }
}
