/** The pure envelope factory (lib/httpStatusResponse.js). Unlike the
    methods of HttpStatus, its factories default the value with `||`, so
    every falsy value is replaced by the status name. */
module HttpStatusResponse {
  import opened JsModel
  import opened HttpStatus
  import IpAddress

  /** The module-local `response(status, value, error, ip)`: the same record
      shape, with its arguments in a different order. */
  function ResponseRecord(status: int, value: JsValue, error: JsValue, ip: JsValue, now: UtcDate): (e: Envelope)
    ensures WellFormed(e)
    ensures e.status == status && e.value == value && e.error == error && e.ip == ip
    ensures e.timestamp == now
  {
    Envelope(status, status < 400, ip, now, error, value)
  }

  /** For the same status, address, value, error and clock both builders
      yield the same record. */
  lemma SameRecordAsHttpStatus(status: int, value: JsValue, error: JsValue, ip: JsValue, now: UtcDate)
    ensures ResponseRecord(status, value, error, ip, now)
         == HttpStatus.AssembleJsonResponseWithError(status, ip, value, error, now)
  {
  }

  /** The 14 static factories `ok` … `serviceUnavailable`, selected by `s`:
      `value || name`, with error and address passed through verbatim
      (undefined when omitted). */
  function Factory(s: Status, value: JsValue, error: JsValue, ip: JsValue, now: UtcDate): (e: Envelope)
    ensures WellFormed(e)
    ensures e.status == Code(s)
    ensures e.success <==> IsSuccessStatus(s)
    ensures !IsTruthy(value) ==> e.value == Str(Name(s))
    ensures IsTruthy(value) ==> e.value == value
    ensures IsTruthy(e.value)
    ensures e.error == error && e.ip == ip && e.timestamp == now
  {
    ResponseRecord(Code(s), Or(value, Str(Name(s))), error, ip, now)
  }

  /** `ok('my value')`: status 200, success, the value kept, error and
      address undefined. */
  lemma OkWithValue(now: UtcDate)
    ensures Factory(Ok, Str("my value"), Undefined, Undefined, now)
         == Envelope(200, true, Undefined, now, Undefined, Str("my value"))
  {
  }

  /** `notFound()`: status 404, not a success, the value "Not Found". */
  lemma NotFoundWithoutValue(now: UtcDate)
    ensures Factory(NotFound, Undefined, Undefined, Undefined, now)
         == Envelope(404, false, Undefined, now, Undefined, Str("Not Found"))
  {
  }

  /** `badRequest(undefined, 'missing field x')`: the name as value and the
      error kept. */
  lemma BadRequestWithError(now: UtcDate)
    ensures Factory(BadRequest, Undefined, Str("missing field x"), Undefined, now)
         == Envelope(400, false, Undefined, now, Str("missing field x"), Str("BadRequest"))
  {
  }

  /** Where the two files' defaulting rules part: an explicit falsy value
      other than undefined (null, false, 0, NaN, "") is emitted unchanged by
      the HttpStatus methods but replaced by the name here. */
  lemma DefaultingDiffers(s: Status, req: Request, value: JsValue, error: JsValue, ip: JsValue, now: UtcDate)
    requires !IsTruthy(value) && !value.Undefined?
    ensures HttpStatus.Respond(s, req, value, error, now).envelope.value == value
    ensures Factory(s, value, error, ip, now).value == Str(Name(s))
    ensures Factory(s, value, error, ip, now).value != value
  {
  }

  /** Forwarding a factory record through `fromHttpStatusResponse` emits the
      record again, with only the address and the clock replaced. */
  lemma ForwardFactoryRecord(s: Status, req: Request, value: JsValue, error: JsValue, ip: JsValue, built: UtcDate, now: UtcDate)
    ensures HttpStatus.FromHttpStatusResponse(req, Factory(s, value, error, ip, built), now)
         == Emit(Factory(s, value, error, IpAddress.ClientIp(req), now))
  {
  }

  /** Away from explicit falsy values, a per-status method of HttpStatus emits
      exactly what forwarding the matching factory's record would emit
      (for the four success statuses, given no error). */
  lemma RespondAgreesWithFactory(s: Status, req: Request, value: JsValue, error: JsValue, ip: JsValue, built: UtcDate, now: UtcDate)
    requires IsTruthy(value) || value.Undefined?
    requires IsSuccessStatus(s) ==> error.Undefined?
    ensures HttpStatus.Respond(s, req, value, error, now)
         == HttpStatus.FromHttpStatusResponse(req, Factory(s, value, error, ip, built), now)
  {
  }
}
