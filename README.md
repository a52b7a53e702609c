# dws-http response envelopes in Dafny

A model of the response helpers of the dws-http library: a closed table of
14 HTTP statuses (code and display name), the uniform JSON response
envelope `{status, success, ip, timestamp, error, value}` that every
handler response carries, the two builders of that envelope, and the
extraction of the client address from a request.

- `js_model.dfy` — module `JsModel`: JavaScript values (undefined, null,
  booleans, numbers with NaN, strings, objects), truthiness, the
  short-circuit operators `||` and `&&` (which return an operand, not a
  boolean), default parameters, and the request fields the library reads.
- `ip_address.dfy` — module `IpAddress`: `lib/ipAddress.js`, the
  first-truthy choice among `req.ip`, `req._remoteAddress`, the
  `x-forwarded-for` header and `req.connection.remoteAddress`, proved equal
  to a recursive reference definition of that ordered policy.
- `http_status.dfy` — module `HttpStatus`: `lib/httpStatus.js`, the status
  table as a 14-constructor datatype with `Code` and `Name`, the record
  builder, the request-aware `response`, the 14 per-status methods,
  `fromHttpStatusResponse` and the `ignoreFavicon` middleware. What the
  source passes to `res.json(...)` is returned as `Emit(envelope)`; calling
  `next()` is returned as `CallNext`.
- `http_status_response.dfy` — module `HttpStatusResponse`:
  `lib/httpStatusResponse.js`, the pure factories, and the lemmas relating
  them to the HttpStatus methods.

The 14 per-status methods of each file differ only in the status they use,
so each family is one function indexed by `Status`: `HttpStatus.Respond(s, …)`
stands for `HttpStatus.ok` … `HttpStatus.serviceUnavailable`, and
`HttpStatusResponse.Factory(s, …)` for `HttpStatusResponse.ok` …
`HttpStatusResponse.serviceUnavailable`. An omitted JavaScript argument is
passed as `Undefined`. The clock value `DateTimeUtils.currentUtcDate()` is a
parameter `now`.

The two files default the value differently, and the model keeps both: the
HttpStatus methods use a default parameter, so only an undefined (omitted)
value becomes the status name; the factories use `value || name`, so every
falsy value (null, false, 0, NaN, "") does
(`HttpStatusResponse.DefaultingDiffers`).

## Model

| member | source | states |
|---|---|---|
| `JsModel.Or` | lib/ipAddress.js:2-6 | `a || b` yields `a` itself when truthy, else `b` itself; the result is truthy iff either operand is |
| `JsModel.And` | lib/ipAddress.js:5 | `a && b` yields `a` itself when falsy, else `b` itself; truthy iff both are |
| `JsModel.DefaultParamVersusOr` | lib/httpStatusResponse.js:22 | with a truthy default, a default parameter and `||` agree exactly when the argument is truthy or undefined |
| `IpAddress.ClientIp` | lib/ipAddress.js:1-7 | `req.ip` when truthy; else `_remoteAddress` when truthy; else the forwarded-for header when truthy; else the connection's remote address when the connection and it are truthy; else undefined; so always undefined or truthy |
| `IpAddress.ConnectionAddress` | lib/ipAddress.js:5 | `req.connection && req.connection.remoteAddress` is truthy iff the connection exists and its address is truthy |
| `IpAddress.FirstTruthy` | lib/ipAddress.js:2-6 | reference policy: the first truthy candidate, all earlier ones falsy; undefined iff no candidate is truthy |
| `IpAddress.ClientIpIsFirstTruthy` | lib/ipAddress.js:2-6 | the source's `||` chain equals the ordered first-truthy policy over the four candidates |
| `IpAddress.ClientIpIsACandidate` | lib/ipAddress.js:2-6 | the result is undefined or verbatim one of the candidates, with no parsing or normalisation |
| `IpAddress.ForwardedForOnly` | lib/ipAddress.js:4 | a request with no direct or legacy address and `x-forwarded-for: 1.2.3.4` yields `"1.2.3.4"`, whatever its connection holds |
| `HttpStatus.Code` | lib/httpStatus.js:23-77 | every code is in 200..599, and below 400 exactly for ok, created, noContent and found |
| `HttpStatus.Name` | lib/httpStatus.js:79-133 | every display name is a non-empty string |
| `HttpStatus.CodeTable` | lib/httpStatus.js:23-77 | the codes are 200, 201, 204, 302, 400, 401, 403, 404, 409, 422, 500, 501, 502, 503 |
| `HttpStatus.NameTable` | lib/httpStatus.js:79-133 | the names are exactly the library's strings, including "Ok", "BadRequest" and "Internal Server Error" |
| `HttpStatus.CodeInjective` | lib/httpStatus.js:23-77 | no two statuses share a code |
| `HttpStatus.AssembleJsonResponseWithError` | lib/httpStatus.js:4-13 | the record is well formed (`success` iff `status < 400`), copies status, ip, error and value unchanged, and is stamped with the given clock value |
| `HttpStatus.JsonResponse` | lib/httpStatus.js:15 | like the builder: the record is well formed, copies status, ip, error and value unchanged, and is stamped with the given clock value |
| `HttpStatus.Response` | lib/httpStatus.js:17-20 | always emits a well-formed record whose ip is the address extracted from the request and whose status, value and error are the arguments |
| `HttpStatus.FromHttpStatusResponse` | lib/httpStatus.js:135-137 | emits the given record's status, value and error, with the ip recomputed from the request and a fresh timestamp |
| `HttpStatus.FromHttpStatusResponseIgnoresIpAndTimestamp` | lib/httpStatus.js:135-137 | the emitted record does not depend on the given record's ip, success or timestamp |
| `HttpStatus.Respond` | lib/httpStatus.js:147-329 | each per-status method emits its code, success iff a 2xx/3xx status, the status name only for an undefined value and the value unchanged otherwise, error undefined for the four success statuses and the given error for the others, and the request's address |
| `HttpStatus.RespondKeepsFalsyValues` | lib/httpStatus.js:201-203 | an explicit falsy value such as "" or 0 is emitted unchanged, while an omitted one becomes a truthy name |
| `HttpStatus.IgnoreFavicon` | lib/httpStatus.js:332-338 | emits iff the URL is exactly "/favicon.ico", then the 204 "No Content" success envelope with no error; otherwise calls `next` and emits nothing |
| `HttpStatusResponse.ResponseRecord` | lib/httpStatusResponse.js:4-13 | the record is well formed and carries status, value, error and ip as given, stamped with the clock value |
| `HttpStatusResponse.SameRecordAsHttpStatus` | lib/httpStatusResponse.js:4-13 | for the same inputs this builder and `assembleJsonResponseWithError` yield the same record |
| `HttpStatusResponse.Factory` | lib/httpStatusResponse.js:21-141 | each factory gives its status's code, success iff a 2xx/3xx status, the name for a falsy value and the value unchanged for a truthy one, so a value that is never falsy; error and ip verbatim |
| `HttpStatusResponse.OkWithValue` | test/httpStatusResponse.spec.js:6-14 | `ok('my value')` is status 200, success, value "my value", ip and error undefined |
| `HttpStatusResponse.NotFoundWithoutValue` | lib/httpStatusResponse.js:85-87 | `notFound()` is status 404, no success, value "Not Found" |
| `HttpStatusResponse.BadRequestWithError` | lib/httpStatusResponse.js:58-60 | `badRequest(undefined, 'missing field x')` is status 400, value "BadRequest", the error kept |
| `HttpStatusResponse.DefaultingDiffers` | lib/httpStatusResponse.js:22 | an explicit falsy value other than undefined is kept by the HttpStatus methods but replaced by the name in the factories |
| `HttpStatusResponse.ForwardFactoryRecord` | lib/httpStatus.js:135-137 | forwarding a factory record re-emits that record with only the address and the timestamp replaced |
| `HttpStatusResponse.RespondAgreesWithFactory` | lib/httpStatus.js:147-329 | for a truthy or omitted value (and no error on success statuses) a HttpStatus method emits exactly what forwarding the matching factory record emits |

## Left out

- `res.json(...)` (lib/httpStatus.js:19) and `next()` (lib/httpStatus.js:336) are calls into the web framework; the model returns `Emit(envelope)` or `CallNext` instead, and does not model what `res.json` returns.
- `DateTimeUtils.currentUtcDate()` is an external clock; the timestamp is the parameter `now` and nothing is claimed about its value.
- The runtime error raised when `req.headers` is missing (lib/ipAddress.js:4): headers are always present as a map here, and exceptions are not modelled.
- JavaScript numbers are reals plus NaN; infinities, negative zero as a distinct value, BigInt and symbols are not represented (none of them changes a truthiness decision the library makes except as modelled).
- Objects are plain maps of own properties: prototypes, getters and arrays are not modelled.
- `HttpStatus.FromHttpStatusResponse` takes an envelope record; the source accepts any object with `status`, `value` and `error` properties.
- Status codes are unbounded integers; `success` compares them with `< 400` as the source does for a number.
- The descriptive doc comments on HTTP semantics carry no behaviour.
