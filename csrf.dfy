/**
 * CSRF protection: state-changing requests without a bearer token must
 * carry an `x-csrf-token` header equal to the session's token; the token
 * endpoint hands out a new token (drawn at random, a parameter here).
 */
module Csrf {
  import opened Common
  import opened Requests

  const PROTECTED_METHODS: seq<string> := ["POST", "PUT", "PATCH", "DELETE"]
  const TOKEN_PATH: string := "/api/csrf-token"

  datatype CsrfOutcome = CsrfNext | CsrfRefuse(status: int, error: string, message: string)

  predicate BearerAuth(req: Request) {
    "authorization" in req.headers && StartsWith(req.headers["authorization"], "Bearer ")
  }

  /** `csrfProtection()`; `sessionToken` is `req.session?.csrfToken`. */
  function CsrfProtection(req: Request, sessionToken: Option<string>): (r: CsrfOutcome)
    ensures !(req.httpMethod in PROTECTED_METHODS) ==> r == CsrfNext
    ensures req.httpMethod in PROTECTED_METHODS && BearerAuth(req) ==> r == CsrfNext
    ensures req.httpMethod in PROTECTED_METHODS && !BearerAuth(req) ==>
      (r == CsrfNext <==> Truthy(Header(req, "x-csrf-token")) && Header(req, "x-csrf-token") == sessionToken)
    ensures r.CsrfRefuse? ==> r == CsrfRefuse(403, "CSRF token validation failed", "Invalid or missing CSRF token")
  {
    if !(req.httpMethod in PROTECTED_METHODS) then CsrfNext
    else if BearerAuth(req) then CsrfNext
    else
      var token := Header(req, "x-csrf-token");
      if !Truthy(token) || token != sessionToken then
        CsrfRefuse(403, "CSRF token validation failed", "Invalid or missing CSRF token")
      else CsrfNext
  }

  /** A protected request without a bearer token and without the header is always refused. */
  lemma MissingHeaderRefused(req: Request, sessionToken: Option<string>)
    requires req.httpMethod in PROTECTED_METHODS && !BearerAuth(req) && "x-csrf-token" !in req.headers
    ensures CsrfProtection(req, sessionToken).CsrfRefuse?
  {
  }

  /**
   * The token endpoint never stores its token in a session, so without a
   * session token every protected request that lacks a bearer token is refused.
   */
  lemma NoSessionTokenRefusesAll(req: Request)
    requires req.httpMethod in PROTECTED_METHODS && !BearerAuth(req)
    ensures CsrfProtection(req, None).CsrfRefuse?
  {
  }

  /** A matching non-empty token lets the request through. */
  lemma MatchingTokenPasses(req: Request, sessionToken: string)
    requires sessionToken != "" && req.headers.Keys == {"x-csrf-token"} && req.headers["x-csrf-token"] == sessionToken
    ensures CsrfProtection(req, Some(sessionToken)) == CsrfNext
  {
  }

  datatype TokenOutcome = TokenIssued(csrfToken: string) | TokenNext

  /** `addCSRFToken`: answers only on the exact token path; `drawn` is the random token. */
  function AddCsrfToken(req: Request, drawn: string): (r: TokenOutcome)
    ensures r.TokenIssued? <==> req.path == TOKEN_PATH
    ensures r.TokenIssued? ==> r.csrfToken == drawn
  {
    if req.path == TOKEN_PATH then TokenIssued(drawn) else TokenNext
  }

  /** Any other path, even one that only extends the token path, is passed on. */
  lemma OtherPathsForwarded(req: Request, drawn: string)
    requires req.path == TOKEN_PATH + "/"
    ensures AddCsrfToken(req, drawn) == TokenNext
  {
    assert |req.path| != |TOKEN_PATH|;
  }
}
