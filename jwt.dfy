/**
 * The request helpers of the token module: the client IP behind proxies and
 * the "user-agent|accept-language" device string. Token signing and
 * verification are not part of this model.
 */
module Jwt {
  import opened Common
  import opened Requests

  /** `getDeviceInfo`: user agent and language joined by "|", "" for a missing header. */
  function GetDeviceInfo(req: Request): (r: string)
    ensures var ua := OrElse(Header(req, "user-agent"), "");
      var al := OrElse(Header(req, "accept-language"), "");
      r == ua + "|" + al && r[|ua|] == '|'
  {
    OrElse(Header(req, "user-agent"), "") + "|" + OrElse(Header(req, "accept-language"), "")
  }

  /** The first comma-separated field of X-Forwarded-For (all of it up to the first comma), when that header is present. */
  function ForwardedFor(req: Request): (r: Option<string>)
    ensures r.Some? <==> "x-forwarded-for" in req.headers
    ensures r.Some? ==> ',' !in r.value && StartsWith(req.headers["x-forwarded-for"], r.value)
    ensures r.Some? ==> var xff := req.headers["x-forwarded-for"];
      |r.value| == |xff| || xff[|r.value|] == ','
  {
    match Header(req, "x-forwarded-for")
    case None => None
    case Some(xff) => Some(Split(xff, ',')[0])
  }

  /** `getIpAddress`: forwarded field, else connection address, else socket address, else "unknown". */
  function GetIpAddress(req: Request): (r: string)
    ensures r != ""
    ensures Truthy(ForwardedFor(req)) ==> r == ForwardedFor(req).value && ',' !in r
    ensures !Truthy(ForwardedFor(req)) && Truthy(req.connectionRemoteAddress) ==>
      r == req.connectionRemoteAddress.value
    ensures !Truthy(ForwardedFor(req)) && !Truthy(req.connectionRemoteAddress) && Truthy(req.socketRemoteAddress) ==>
      r == req.socketRemoteAddress.value
    ensures !Truthy(ForwardedFor(req)) && !Truthy(req.connectionRemoteAddress) && !Truthy(req.socketRemoteAddress) ==>
      r == "unknown"
  {
    var first := ForwardedFor(req);
    if Truthy(first) then first.value
    else if Truthy(req.connectionRemoteAddress) then req.connectionRemoteAddress.value
    else if Truthy(req.socketRemoteAddress) then req.socketRemoteAddress.value
    else "unknown"
  }

  /** A forwarded list is reduced to its first hop: "a,b" gives "a". */
  lemma ForwardedFirstHop(req: Request, hop: string, rest: string)
    requires hop != "" && ',' !in hop
    requires req.headers == map["x-forwarded-for" := hop + "," + rest]
    ensures GetIpAddress(req) == hop
  {
    assert hop + "," + rest == hop + [','] + rest;
    SplitFirstField(hop, ',', rest);
  }

  /** An empty X-Forwarded-For header falls through to the socket addresses. */
  lemma EmptyForwardedFallsBack(req: Request)
    requires req.headers == map["x-forwarded-for" := ""]
    ensures GetIpAddress(req) == OrElse(req.connectionRemoteAddress, OrElse(req.socketRemoteAddress, "unknown"))
  {
    assert Split("", ',') == [""];
  }
}
