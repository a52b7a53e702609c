/** Client address extraction (lib/ipAddress.js): an ordered first-truthy
    choice over four places in the request. */
module IpAddress {
  import opened JsModel

  /** The address as the source computes it: one short-circuit chain
      `req.ip || req._remoteAddress || req.headers['x-forwarded-for'] ||
      (req.connection && req.connection.remoteAddress) || undefined`. */
  function ClientIp(req: Request): (r: JsValue)
    // Each candidate wins exactly when it is truthy and all earlier ones are falsy.
    ensures IsTruthy(req.ip) ==> r == req.ip
    ensures !IsTruthy(req.ip) && IsTruthy(req.remoteAddress) ==> r == req.remoteAddress
    ensures (!IsTruthy(req.ip) && !IsTruthy(req.remoteAddress) && IsTruthy(ForwardedFor(req)))
              ==> r == ForwardedFor(req)
    ensures (!IsTruthy(req.ip) && !IsTruthy(req.remoteAddress) && !IsTruthy(ForwardedFor(req))
             && IsTruthy(req.connection) && IsTruthy(Member(req.connection, "remoteAddress")))
              ==> r == Member(req.connection, "remoteAddress")
    ensures (!IsTruthy(req.ip) && !IsTruthy(req.remoteAddress) && !IsTruthy(ForwardedFor(req))
             && !IsTruthy(ConnectionAddress(req)))
              ==> r == Undefined
    // Hence never an empty string, null or other falsy value besides undefined.
    ensures r == Undefined || IsTruthy(r)
  {
    Or(req.ip,
      Or(req.remoteAddress,
        Or(ForwardedFor(req),
          Or(And(req.connection, Member(req.connection, "remoteAddress")),
            Undefined))))
  }

  /** `req.headers['x-forwarded-for']`, taken verbatim (a comma-separated
      proxy list is not split). */
  function ForwardedFor(req: Request): JsValue {
    Header(req, "x-forwarded-for")
  }

  /** `req.connection && req.connection.remoteAddress`. */
  function ConnectionAddress(req: Request): (r: JsValue)
    ensures IsTruthy(r) <==> IsTruthy(req.connection) && IsTruthy(Member(req.connection, "remoteAddress"))
  {
    And(req.connection, Member(req.connection, "remoteAddress"))
  }

  /** The candidates in priority order. */
  function Candidates(req: Request): (cs: seq<JsValue>)
    ensures |cs| == 4
  {
    [req.ip, req.remoteAddress, ForwardedFor(req), ConnectionAddress(req)]
  }

  /** Reference definition of the ordered first-match policy: the first
      truthy candidate, or undefined when there is none. */
  function FirstTruthy(cs: seq<JsValue>): (r: JsValue)
    ensures r == Undefined || IsTruthy(r)
    ensures r.Undefined? <==> forall i :: 0 <= i < |cs| ==> !IsTruthy(cs[i])
    ensures !r.Undefined? ==> exists k :: 0 <= k < |cs| && cs[k] == r
                               && forall i :: 0 <= i < k ==> !IsTruthy(cs[i])
  {
    if |cs| == 0 then Undefined
    else if IsTruthy(cs[0]) then cs[0]
    else
      var r := FirstTruthy(cs[1..]);
      assert forall i :: 1 <= i < |cs| ==> cs[i] == cs[1..][i - 1];
      if r.Undefined? then r
      else
        var k :| 0 <= k < |cs[1..]| && cs[1..][k] == r
                 && forall i :: 0 <= i < k ==> !IsTruthy(cs[1..][i]);
        assert cs[k + 1] == r;
        r
  }

  /** The source's chain is that policy applied to the four candidates: the
      result is verbatim one of them (no parsing or normalisation) and every
      candidate before it is falsy. */
  lemma ClientIpIsFirstTruthy(req: Request)
    ensures ClientIp(req) == FirstTruthy(Candidates(req))
  {
    var a, b, c, d := req.ip, req.remoteAddress, ForwardedFor(req), ConnectionAddress(req);
    assert [d][1..] == [];
    assert [c, d][1..] == [d];
    assert [b, c, d][1..] == [c, d];
    assert [a, b, c, d][1..] == [b, c, d];
    assert FirstTruthy([d]) == Or(d, Undefined);
    assert FirstTruthy([c, d]) == Or(c, FirstTruthy([d]));
    assert FirstTruthy([b, c, d]) == Or(b, FirstTruthy([c, d]));
    assert FirstTruthy([a, b, c, d]) == Or(a, FirstTruthy([b, c, d]));
  }

  /** The chosen address is undefined or one of the candidates, unchanged. */
  lemma ClientIpIsACandidate(req: Request)
    ensures ClientIp(req) == Undefined || ClientIp(req) in Candidates(req)
  {
    ClientIpIsFirstTruthy(req);
  }

  /** A request with no direct or legacy address and an `x-forwarded-for`
      header yields that header's value, whatever its connection holds. */
  lemma ForwardedForOnly(connection: JsValue, url: JsValue)
    ensures ClientIp(Request(Undefined, Undefined, map["x-forwarded-for" := Str("1.2.3.4")], connection, url))
         == Str("1.2.3.4")
  {
  }
}
