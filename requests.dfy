/**
 * The parts of an incoming HTTP request that the middleware reads: method,
 * path, headers (lower-case names), the socket addresses, the user the
 * authentication step attached (its id and the loaded user), and the `amount` field of body and query.
 */
module Requests {
  import opened Common
  import opened Records

  datatype Request = Request(
    httpMethod: string,
    path: string,
    headers: map<string, string>,
    connectionRemoteAddress: Option<string>,
    socketRemoteAddress: Option<string>,
    userId: Option<string>,
    user: Option<User>,
    bodyAmount: Option<real>,
    queryAmount: Option<real>)

  /** `req.headers[name]`, absent when the header was not sent. */
  function Header(req: Request, name: string): (r: Option<string>)
    ensures r.Some? <==> name in req.headers
    ensures r.Some? ==> r.value == req.headers[name]
  {
    if name in req.headers then Some(req.headers[name]) else None
  }
}
