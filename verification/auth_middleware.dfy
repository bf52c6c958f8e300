/**
 * The request gates: `verifyToken` reads a bearer token from the
 * Authorization header and records its claims on the request; `requireRole`
 * lets a request through only for the listed roles. Token verification
 * (signature and expiry) is a parameter.
 */
module AuthMiddleware {
  import opened Wrappers
  import opened Constants
  import opened Jwt

  const BearerPrefix: string := "Bearer "

  /** What a gate does: call `next`, or answer with a status and message. */
  datatype Gate = Next | Reject(status: int, message: string)

  /** The token after the `Bearer ` prefix, when the header is present and has that prefix. */
  function BearerToken(header: Option<string>): (r: Option<string>)
    ensures r.Some? <==> header.Some? && |header.value| >= |BearerPrefix|
                         && header.value[..|BearerPrefix|] == BearerPrefix
    ensures r.Some? ==> BearerPrefix + r.value == header.value
  {
    if header.None? || |header.value| < 7 || header.value[..7] != BearerPrefix then None
    else Some(header.value[7..])
  }

  /** The token a header of the form `Bearer <token>` carries is `<token>`. */
  lemma BearerRoundTrip(token: string)
    ensures BearerToken(Some(BearerPrefix + token)) == Some(token)
  {
    assert (BearerPrefix + token)[..7] == BearerPrefix;
    assert (BearerPrefix + token)[7..] == token;
  }

  /** The claims `verifyToken` accepts for a header, or `None` for a 401. */
  function Authenticate(header: Option<string>, verify: string -> Option<Claims>): (r: Option<Claims>)
    ensures r.Some? <==> BearerToken(header).Some? && verify(BearerToken(header).value).Some?
    ensures r.Some? ==> r == verify(header.value[7..])
  {
    var token := BearerToken(header);
    if token.None? then None else verify(token.value)
  }

  /** The request as the gates see it: its Authorization header and the user they attach. */
  class Request {
    const authorization: Option<string>
    var user: Option<Claims>

    constructor (authorization: Option<string>)
      ensures this.authorization == authorization && user.None?
    {
      this.authorization := authorization;
      user := None;
    }

    /**
     * `verifyToken`: a 401 with the invalid-token message for a missing or
     * non-bearer header and for a token that does not verify; otherwise the
     * claims become `user` and `next` is called.
     */
    method VerifyToken(verify: string -> Option<Claims>) returns (gate: Gate)
      modifies this
      ensures var claims := Authenticate(authorization, verify);
        if claims.Some? then gate == Next && user == claims
        else gate == Reject(StatusUnauthorized, InvalidToken) && user == old(user)
    {
      if authorization.None? || |authorization.value| < 7 || authorization.value[..7] != BearerPrefix {
        return Reject(StatusUnauthorized, InvalidToken);
      }
      var token := authorization.value[7..];
      var decoded := verify(token);
      if decoded.None? {
        return Reject(StatusUnauthorized, InvalidToken);
      }
      user := decoded;
      gate := Next;
    }
  }

  /** `requireRole(allowed)`: 401 without a user, then 403 for a role not allowed. */
  function RequireRole(allowed: seq<string>, user: Option<Claims>): (g: Gate)
    ensures g == Next <==> user.Some? && user.value.role in allowed
    ensures user.None? ==> g == Reject(StatusUnauthorized, UnauthorizedAccess)
    ensures user.Some? && user.value.role !in allowed ==> g == Reject(StatusForbidden, AccessForbidden)
  {
    if user.None? then Reject(StatusUnauthorized, UnauthorizedAccess)
    else if user.value.role !in allowed then Reject(StatusForbidden, AccessForbidden)
    else Next
  }

  /**
   * Behind `verifyToken`, `requireRole` never answers 401: a request reaches
   * it only with verified claims, so it either passes or is forbidden.
   */
  lemma GatesInSequence(header: Option<string>, verify: string -> Option<Claims>, allowed: seq<string>)
    requires Authenticate(header, verify).Some?
    ensures var g := RequireRole(allowed, Authenticate(header, verify));
      g == Next || g == Reject(StatusForbidden, AccessForbidden)
  {
  }
}
