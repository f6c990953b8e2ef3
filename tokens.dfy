/**
  * Issuing and checking the two kinds of signed tokens. The signature scheme is a pair of
  * functions supplied from outside (`Signer`); what the model relies on about it is stated
  * once, as the predicate `Sound`, and every lemma that needs it asks for it.
  */
module Tokens {
  import opened Common

  /** The claims both kinds of token carry; `kind` is the `type` claim. */
  datatype Claims = Claims(userId: string, email: string, role: string, kind: string)

  /** A decoded token: the claims plus issue and expiry times, in whole seconds. */
  datatype Payload = Payload(claims: Claims, iat: int, exp: int)

  /** The signature scheme: `sign(payload, secret)` gives the token text and
      `decode(token, secret)` the payload when the signature checks under `secret`. */
  datatype Signer = Signer(sign: (Payload, string) -> string, decode: (string, string) -> Option<Payload>)

  /** What the model assumes of the scheme: a token decodes under the secret it was signed
      with, to the payload it was signed from, and under no other secret. */
  ghost predicate Sound(s: Signer)
  {
    && (forall p: Payload, key: string :: s.decode(s.sign(p, key), key) == Some(p))
    && (forall p: Payload, key: string, other: string :: key != other ==> s.decode(s.sign(p, key), other) == None)
  }

  /** The secrets and lifetimes the token service reads from the configuration. The access
      lifetime is the `ACCESS_TOKEN_EXPIRY` duration in seconds. */
  datatype TokenConfig = TokenConfig(accessSecret: string, refreshSecret: string, accessLifetime: int, refreshDays: int)

  const SecondsPerDay := 86400

  /** JWT times are whole seconds: `Math.floor(Date.now() / 1000)` for a clock in milliseconds. */
  function EpochSeconds(nowMs: int): int
  {
    nowMs / 1000
  }

  const AccessKind := "access"
  const RefreshKind := "refresh"

  /** `generateAccessToken(userId, email, role)` at time `nowMs`. */
  function GenerateAccessToken(s: Signer, cfg: TokenConfig, userId: string, email: string, role: string, nowMs: int): string
  {
    var iat := EpochSeconds(nowMs);
    s.sign(Payload(Claims(userId, email, role, AccessKind), iat, iat + cfg.accessLifetime), cfg.accessSecret)
  }

  /** `generateRefreshToken(userId, email, role)` at time `nowMs`: valid for the configured
      number of days. */
  function GenerateRefreshToken(s: Signer, cfg: TokenConfig, userId: string, email: string, role: string, nowMs: int): string
  {
    var iat := EpochSeconds(nowMs);
    s.sign(Payload(Claims(userId, email, role, RefreshKind), iat, iat + cfg.refreshDays * SecondsPerDay), cfg.refreshSecret)
  }

  /** `jwt.verify(token, secret)`: the signature must check and the current second must be
      before `exp`. */
  function JwtVerify(s: Signer, token: string, secret: string, nowMs: int): (r: Option<Payload>)
    ensures r.Some? ==> s.decode(token, secret) == r && EpochSeconds(nowMs) < r.value.exp
    ensures r.None? ==> s.decode(token, secret).None? || s.decode(token, secret).value.exp <= EpochSeconds(nowMs)
  {
    match s.decode(token, secret)
    case None => None
    case Some(p) => if EpochSeconds(nowMs) < p.exp then Some(p) else None
  }

  /** The check both `verify...Token` functions make: a verified token of the right kind, or
      the one message that hides why it failed. */
  function VerifyKind(s: Signer, token: string, secret: string, kind: string, failure: string, nowMs: int): (r: Result<Payload, string>)
    ensures r.Ok? <==> JwtVerify(s, token, secret, nowMs).Some? && JwtVerify(s, token, secret, nowMs).value.claims.kind == kind
    ensures r.Ok? ==> Some(r.value) == JwtVerify(s, token, secret, nowMs)
    ensures r.Err? ==> r.error == failure
  {
    match JwtVerify(s, token, secret, nowMs)
    case Some(p) => if p.claims.kind == kind then Ok(p) else Err(failure)
    case None => Err(failure)
  }

  const AccessFailure := "Invalid or expired access token"
  const RefreshFailure := "Invalid or expired refresh token"

  /** `verifyAccessToken(token)`: the decoded payload, or the error message thrown. */
  function VerifyAccessToken(s: Signer, cfg: TokenConfig, token: string, nowMs: int): (r: Result<Payload, string>)
    ensures r.Ok? ==> r.value.claims.kind == AccessKind && s.decode(token, cfg.accessSecret) == Some(r.value)
                      && EpochSeconds(nowMs) < r.value.exp
    ensures r.Err? ==> r.error == AccessFailure
  {
    VerifyKind(s, token, cfg.accessSecret, AccessKind, AccessFailure, nowMs)
  }

  /** `verifyRefreshToken(token)`: the decoded payload, or the error message thrown. */
  function VerifyRefreshToken(s: Signer, cfg: TokenConfig, token: string, nowMs: int): (r: Result<Payload, string>)
    ensures r.Ok? ==> r.value.claims.kind == RefreshKind && s.decode(token, cfg.refreshSecret) == Some(r.value)
                      && EpochSeconds(nowMs) < r.value.exp
    ensures r.Err? ==> r.error == RefreshFailure
  {
    VerifyKind(s, token, cfg.refreshSecret, RefreshKind, RefreshFailure, nowMs)
  }

  /** An access token verifies, until it expires, to exactly the claims it was issued with. */
  lemma AccessRoundTrip(s: Signer, cfg: TokenConfig, userId: string, email: string, role: string, issuedMs: int, nowMs: int)
    requires Sound(s)
    requires EpochSeconds(nowMs) < EpochSeconds(issuedMs) + cfg.accessLifetime
    ensures var r := VerifyAccessToken(s, cfg, GenerateAccessToken(s, cfg, userId, email, role, issuedMs), nowMs);
      r.Ok? && r.value.claims == Claims(userId, email, role, AccessKind)
  {
    var iat := EpochSeconds(issuedMs);
    var p := Payload(Claims(userId, email, role, AccessKind), iat, iat + cfg.accessLifetime);
    assert s.decode(s.sign(p, cfg.accessSecret), cfg.accessSecret) == Some(p);
  }

  /** A refresh token verifies, for the configured number of days, to its claims. */
  lemma RefreshRoundTrip(s: Signer, cfg: TokenConfig, userId: string, email: string, role: string, issuedMs: int, nowMs: int)
    requires Sound(s)
    requires EpochSeconds(nowMs) < EpochSeconds(issuedMs) + cfg.refreshDays * SecondsPerDay
    ensures var r := VerifyRefreshToken(s, cfg, GenerateRefreshToken(s, cfg, userId, email, role, issuedMs), nowMs);
      r.Ok? && r.value.claims == Claims(userId, email, role, RefreshKind)
  {
    var iat := EpochSeconds(issuedMs);
    var p := Payload(Claims(userId, email, role, RefreshKind), iat, iat + cfg.refreshDays * SecondsPerDay);
    assert s.decode(s.sign(p, cfg.refreshSecret), cfg.refreshSecret) == Some(p);
  }

  /** Once its expiry second is reached, an access token no longer verifies. */
  lemma AccessTokenExpires(s: Signer, cfg: TokenConfig, userId: string, email: string, role: string, issuedMs: int, nowMs: int)
    requires Sound(s)
    requires EpochSeconds(nowMs) >= EpochSeconds(issuedMs) + cfg.accessLifetime
    ensures VerifyAccessToken(s, cfg, GenerateAccessToken(s, cfg, userId, email, role, issuedMs), nowMs)
            == Err(AccessFailure)
  {
    var iat := EpochSeconds(issuedMs);
    var p := Payload(Claims(userId, email, role, AccessKind), iat, iat + cfg.accessLifetime);
    assert s.decode(s.sign(p, cfg.accessSecret), cfg.accessSecret) == Some(p);
  }

  /** A refresh token is never accepted where an access token is required, even when both
      secrets are set to the same value: the `type` claim tells them apart. */
  lemma RefreshTokenIsNotAccess(s: Signer, cfg: TokenConfig, userId: string, email: string, role: string, issuedMs: int, nowMs: int)
    requires Sound(s)
    ensures VerifyAccessToken(s, cfg, GenerateRefreshToken(s, cfg, userId, email, role, issuedMs), nowMs)
            == Err(AccessFailure)
  {
    var iat := EpochSeconds(issuedMs);
    var p := Payload(Claims(userId, email, role, RefreshKind), iat, iat + cfg.refreshDays * SecondsPerDay);
    if cfg.refreshSecret == cfg.accessSecret {
      assert s.decode(s.sign(p, cfg.refreshSecret), cfg.accessSecret) == Some(p);
    } else {
      assert s.decode(s.sign(p, cfg.refreshSecret), cfg.accessSecret) == None;
    }
  }

  /** Symmetrically, an access token never passes as a refresh token. */
  lemma AccessTokenIsNotRefresh(s: Signer, cfg: TokenConfig, userId: string, email: string, role: string, issuedMs: int, nowMs: int)
    requires Sound(s)
    ensures VerifyRefreshToken(s, cfg, GenerateAccessToken(s, cfg, userId, email, role, issuedMs), nowMs)
            == Err(RefreshFailure)
  {
    var iat := EpochSeconds(issuedMs);
    var p := Payload(Claims(userId, email, role, AccessKind), iat, iat + cfg.accessLifetime);
    if cfg.refreshSecret == cfg.accessSecret {
      assert s.decode(s.sign(p, cfg.accessSecret), cfg.refreshSecret) == Some(p);
    } else {
      assert s.decode(s.sign(p, cfg.accessSecret), cfg.refreshSecret) == None;
    }
  }

  /** Tokens carry no randomness: two refresh tokens for the same claims issued within the
      same second are the same string. */
  lemma SameSecondSameRefreshToken(s: Signer, cfg: TokenConfig, userId: string, email: string, role: string, firstMs: int, secondMs: int)
    requires EpochSeconds(firstMs) == EpochSeconds(secondMs)
    ensures GenerateRefreshToken(s, cfg, userId, email, role, firstMs) == GenerateRefreshToken(s, cfg, userId, email, role, secondMs)
  {
  }
}
