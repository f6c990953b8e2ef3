/**
  * The access guard: the bearer token taken from the `Authorization` header, the required and
  * the optional authentication steps that attach an identity to the request, and the role
  * gate.
  */
module AuthGuard {
  import opened Common
  import opened JsText
  import opened Http
  import opened Tokens

  /** `req.user`: the three claims copied from a verified access token. */
  datatype Identity = Identity(userId: string, email: string, role: string)

  function IdentityOf(p: Payload): Identity
  {
    Identity(p.claims.userId, p.claims.email, p.claims.role)
  }

  /** `authHeader && authHeader.split(' ')[1]`, kept only when truthy: the second
      space-separated field, whatever the first one says. */
  function BearerToken(authorization: Option<string>): (t: Option<string>)
    ensures t.Some? ==> t.value != "" && ' ' !in t.value
  {
    match authorization
    case None => None
    case Some(h) =>
      var fields := Split(h, ' ');
      if |fields| >= 2 && fields[1] != "" then Some(fields[1]) else None
  }

  /** `<scheme> <token>` yields the token, for any one-word scheme (`Bearer` or not). */
  lemma BearerTokenOfHeader(scheme: string, token: string)
    requires ' ' !in scheme && ' ' !in token && token != ""
    ensures BearerToken(Some(scheme + " " + token)) == Some(token)
  {
    assert scheme + " " + token == scheme + [' '] + token;
    SplitFirstField(scheme, token, ' ');
    SplitNoSeparator(token, ' ');
  }

  /** A header without a space, or with nothing between the first and second space, has no
      token. */
  lemma NoBearerToken(h: string, scheme: string, rest: string)
    requires ' ' !in h && ' ' !in scheme
    ensures BearerToken(Some(h)) == None
    ensures BearerToken(Some(scheme + "  " + rest)) == None
  {
    SplitNoSeparator(h, ' ');
    var tail := [' '] + rest;
    assert scheme + "  " + rest == scheme + [' '] + tail;
    SplitFirstField(scheme, tail, ' ');
    SplitFirstField([], rest, ' ');
    assert [] + [' '] + rest == tail;
  }

  /** What the required guard decides: admit with an identity, or answer. */
  datatype Decision = Admit(user: Identity) | Deny(response: Response)

  /** `authenticateToken`, as a decision on the header at time `nowMs`. */
  function Authenticate(s: Signer, cfg: TokenConfig, authorization: Option<string>, nowMs: int): (d: Decision)
    ensures d.Deny? ==> d.response.status == d.response.body.status == 401
    ensures d.Admit? <==> BearerToken(authorization).Some? && VerifyAccessToken(s, cfg, BearerToken(authorization).value, nowMs).Ok?
    ensures d.Admit? ==> d.user == IdentityOf(VerifyAccessToken(s, cfg, BearerToken(authorization).value, nowMs).value)
    ensures BearerToken(authorization).None? ==> d.Deny? && d.response.body.error == "Authentication Required"
    ensures BearerToken(authorization).Some? && d.Deny? ==> d.response.body == Envelope("Authentication Failed", AccessFailure, 401, None, None)
  {
    match BearerToken(authorization)
    case None => Deny(Plain(401, "Authentication Required", "Access token is required in Authorization header"))
    case Some(token) =>
      match VerifyAccessToken(s, cfg, token, nowMs)
      case Ok(p) => Admit(IdentityOf(p))
      case Err(message) => Deny(Plain(401, "Authentication Failed", message))
  }

  /** `optionalAuth`: the identity when a token is present and verifies, otherwise none; the
      request always goes on. */
  function OptionalIdentity(s: Signer, cfg: TokenConfig, authorization: Option<string>, nowMs: int): (u: Option<Identity>)
    ensures u.Some? <==> Authenticate(s, cfg, authorization, nowMs).Admit?
    ensures u.Some? ==> u.value == Authenticate(s, cfg, authorization, nowMs).user
  {
    match BearerToken(authorization)
    case None => None
    case Some(token) =>
      match VerifyAccessToken(s, cfg, token, nowMs)
      case Ok(p) => Some(IdentityOf(p))
      case Err(_) => None
  }

  /** A freshly issued access token, presented as `Bearer <token>`, admits exactly the
      identity it was issued for until it expires. */
  lemma IssuedTokenAdmits(s: Signer, cfg: TokenConfig, scheme: string, userId: string, email: string, role: string, issuedMs: int, nowMs: int)
    requires Sound(s) && ' ' !in scheme
    requires EpochSeconds(nowMs) < EpochSeconds(issuedMs) + cfg.accessLifetime
    requires var token := GenerateAccessToken(s, cfg, userId, email, role, issuedMs); token != "" && ' ' !in token
    ensures Authenticate(s, cfg, Some(scheme + " " + GenerateAccessToken(s, cfg, userId, email, role, issuedMs)), nowMs)
            == Admit(Identity(userId, email, role))
  {
    var token := GenerateAccessToken(s, cfg, userId, email, role, issuedMs);
    BearerTokenOfHeader(scheme, token);
    AccessRoundTrip(s, cfg, userId, email, role, issuedMs, nowMs);
  }

  /** A refresh token presented to the guard is refused with 401. */
  lemma RefreshTokenRefused(s: Signer, cfg: TokenConfig, scheme: string, userId: string, email: string, role: string, issuedMs: int, nowMs: int)
    requires Sound(s) && ' ' !in scheme
    requires var token := GenerateRefreshToken(s, cfg, userId, email, role, issuedMs); token != "" && ' ' !in token
    ensures var d := Authenticate(s, cfg, Some(scheme + " " + GenerateRefreshToken(s, cfg, userId, email, role, issuedMs)), nowMs);
      d.Deny? && d.response.status == 401 && d.response.body.error == "Authentication Failed"
  {
    var token := GenerateRefreshToken(s, cfg, userId, email, role, issuedMs);
    BearerTokenOfHeader(scheme, token);
    RefreshTokenIsNotAccess(s, cfg, userId, email, role, issuedMs, nowMs);
  }

  /** What the role gate does: pass the request on, or answer. */
  datatype Gate = Proceed | Stop(response: Response)

  /** `requireRole(allowedRoles)`: 401 without an identity, 403 for a role not allowed. */
  function RequireRole(allowed: seq<string>, user: Option<Identity>): (g: Gate)
    ensures g.Proceed? <==> user.Some? && user.value.role in allowed
    ensures user.None? ==> g.Stop? && g.response.status == g.response.body.status == 401
    ensures user.Some? && user.value.role !in allowed ==> g.Stop? && g.response.status == g.response.body.status == 403
  {
    if user.None? then Stop(Plain(401, "Authentication Required", "Access token is required"))
    else if user.value.role !in allowed then Stop(Plain(403, "Access Denied", "Insufficient permissions for this operation"))
    else Proceed
  }

  const AdminRoles: seq<string> := ["admin"]
  const UserRoles: seq<string> := ["user", "admin"]

  /** `requireAdmin` lets only administrators through; `requireUser` lets users and
      administrators through, and refuses any other role with 403. */
  lemma RoleGates(user: Identity)
    ensures RequireRole(AdminRoles, Some(user)).Proceed? <==> user.role == "admin"
    ensures RequireRole(UserRoles, Some(user)).Proceed? <==> user.role == "user" || user.role == "admin"
    ensures user.role == "user" ==> RequireRole(AdminRoles, Some(user)).response.status == 403
  {
  }

  /** The request as the guard sees it: the header it reads and the `user` slot it fills. */
  class Request {
    var authorization: Option<string>
    var user: Option<Identity>

    constructor (authorization: Option<string>)
      ensures this.authorization == authorization && user == None
    {
      this.authorization := authorization;
      user := None;
    }

    /** `authenticateToken(req, res, next)`: on success `req.user` is set and `next` is
        called (`answer == None`); on failure the 401 answer is sent and `req.user` is left
        as it was. */
    method AuthenticateToken(s: Signer, cfg: TokenConfig, nowMs: int) returns (answer: Option<Response>)
      modifies this
      ensures authorization == old(authorization)
      ensures match Authenticate(s, cfg, authorization, nowMs)
        case Admit(id) => user == Some(id) && answer == None
        case Deny(r) => user == old(user) && answer == Some(r)
    {
      var token := BearerToken(authorization);
      if token.None? {
        return Some(Plain(401, "Authentication Required", "Access token is required in Authorization header"));
      }
      var verified := VerifyAccessToken(s, cfg, token.value, nowMs);
      if verified.Err? {
        return Some(Plain(401, "Authentication Failed", verified.error));
      }
      user := Some(IdentityOf(verified.value));
      answer := None;
    }

    /** `optionalAuth(req, res, next)`: `next` is always called; `req.user` is set only when a
        token is present and verifies. */
    method OptionalAuth(s: Signer, cfg: TokenConfig, nowMs: int)
      modifies this
      ensures authorization == old(authorization)
      ensures var u := OptionalIdentity(s, cfg, authorization, nowMs);
        user == (if u.Some? then u else old(user))
    {
      var token := BearerToken(authorization);
      if token.Some? {
        var verified := VerifyAccessToken(s, cfg, token.value, nowMs);
        if verified.Ok? {
          user := Some(IdentityOf(verified.value));
        }
      }
    }
  }
}
