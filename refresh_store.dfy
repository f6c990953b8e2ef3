/**
  * The refresh-token collection: records keyed by their (unique) token string, and the token
  * service's operations on it — insert, the liveness check, single and per-user revocation,
  * and the sweep of expired records. Times are milliseconds.
  */
module RefreshStore {
  import opened Common
  import opened Tokens
  import ErrorHandler

  /** `deviceInfo: {userAgent, ip}`, both optional. */
  datatype DeviceInfo = DeviceInfo(userAgent: Option<string>, ip: Option<string>)

  /** A stored refresh token. `userId`, `token` and `expiresAt` are required by the schema. */
  datatype RefreshRecord = RefreshRecord(
    userId: string,
    token: string,
    deviceInfo: DeviceInfo,
    isRevoked: bool,
    expiresAt: int,
    createdAt: int)

  const DayMs := 86400000

  /** The collection; the unique index on `token` makes the token a key. */
  type Table = map<string, RefreshRecord>

  ghost predicate Keyed(m: Table)
  {
    forall t :: t in m ==> m[t].token == t
  }

  /** The document `saveRefreshToken` builds at `nowMs`: not revoked, created now, and
      expiring the configured number of days later. */
  function NewRecord(userId: string, token: string, deviceInfo: DeviceInfo, nowMs: int, days: int): (r: RefreshRecord)
    ensures r.token == token && r.userId == userId && !r.isRevoked && r.createdAt == nowMs
    ensures r.expiresAt - r.createdAt == days * DayMs
  {
    RefreshRecord(userId, token, deviceInfo, false, nowMs + days * DayMs, nowMs)
  }

  /** `tokenDoc.save()`: the record is added, unless its token is already stored, in which
      case the unique index refuses the insert and nothing changes. */
  function Inserted(m: Table, r: RefreshRecord): (res: Result<Table, ErrorHandler.ErrorRecord>)
    ensures r.token in m <==> res.Err?
    ensures res.Err? ==> res.error == ErrorHandler.DuplicateKeyError()
    ensures res.Ok? ==> res.value.Keys == m.Keys + {r.token} && res.value[r.token] == r
                        && forall t :: t in m ==> res.value[t] == m[t]
    ensures res.Ok? && Keyed(m) ==> Keyed(res.value)
  {
    if r.token in m then Err(ErrorHandler.DuplicateKeyError()) else Ok(m[r.token := r])
  }

  /** The query of `verifyRefreshTokenFromDB`: a record with this token, not revoked, and
      expiring strictly after now. */
  predicate Live(m: Table, token: string, nowMs: int)
  {
    token in m && !m[token].isRevoked && m[token].expiresAt > nowMs
  }

  const NotFoundOrRevoked := "Refresh token not found or revoked"
  const BadSignature := "Invalid refresh token signature"

  /** `verifyRefreshTokenFromDB(token)`: the live record, provided the token also verifies
      as a refresh token; otherwise the message thrown. */
  function CheckStored(s: Signer, cfg: TokenConfig, m: Table, token: string, nowMs: int): (r: Result<RefreshRecord, string>)
    ensures r.Ok? <==> Live(m, token, nowMs) && VerifyRefreshToken(s, cfg, token, nowMs).Ok?
    ensures r.Ok? ==> r.value == m[token]
    ensures !Live(m, token, nowMs) ==> r == Err(NotFoundOrRevoked)
    ensures Live(m, token, nowMs) && r.Err? ==> r.error == BadSignature
  {
    if !Live(m, token, nowMs) then Err(NotFoundOrRevoked)
    else if VerifyRefreshToken(s, cfg, token, nowMs).Err? then Err(BadSignature)
    else Ok(m[token])
  }

  /** `updateOne({token}, {isRevoked: true})`. */
  function RevokedOne(m: Table, token: string): (m': Table)
    ensures m'.Keys == m.Keys
    ensures token in m ==> m'[token] == m[token].(isRevoked := true)
    ensures forall t :: t in m && t != token ==> m'[t] == m[t]
  {
    if token in m then m[token := m[token].(isRevoked := true)] else m
  }

  /** `updateMany({userId}, {isRevoked: true})`. */
  function RevokedAll(m: Table, userId: string): (m': Table)
    ensures m'.Keys == m.Keys
    ensures forall t :: t in m && m[t].userId == userId ==> m'[t] == m[t].(isRevoked := true)
    ensures forall t :: t in m && m[t].userId != userId ==> m'[t] == m[t]
  {
    map t | t in m :: if m[t].userId == userId then m[t].(isRevoked := true) else m[t]
  }

  /** `deleteMany({expiresAt: {$lt: now}})`. */
  function Swept(m: Table, nowMs: int): (m': Table)
    ensures forall t :: t in m' <==> t in m && m[t].expiresAt >= nowMs
    ensures forall t :: t in m' ==> m'[t] == m[t]
  {
    map t | t in m && !(m[t].expiresAt < nowMs) :: m[t]
  }

  /** The collection as the token service sees it. */
  class TokenStore {
    var records: Table

    ghost predicate Valid()
      reads this
    {
      Keyed(records)
    }

    constructor ()
      ensures Valid() && records == map[]
    {
      records := map[];
    }

    /** `saveRefreshToken(userId, token, deviceInfo)` at `nowMs`. */
    method Save(userId: string, token: string, deviceInfo: DeviceInfo, nowMs: int, days: int)
      returns (r: Result<RefreshRecord, ErrorHandler.ErrorRecord>)
      requires Valid()
      modifies this
      ensures Valid()
      ensures var ins := Inserted(old(records), NewRecord(userId, token, deviceInfo, nowMs, days));
        && (ins.Ok? ==> records == ins.value && r == Ok(NewRecord(userId, token, deviceInfo, nowMs, days)))
        && (ins.Err? ==> records == old(records) && r == Err(ins.error))
    {
      var record := NewRecord(userId, token, deviceInfo, nowMs, days);
      var ins := Inserted(records, record);
      if ins.Ok? {
        records := ins.value;
        r := Ok(record);
      } else {
        r := Err(ins.error);
      }
    }

    /** `verifyRefreshTokenFromDB(token)`: reads the collection and changes nothing. */
    method VerifyFromDB(s: Signer, cfg: TokenConfig, token: string, nowMs: int) returns (r: Result<RefreshRecord, string>)
      ensures r == CheckStored(s, cfg, records, token, nowMs)
    {
      if !(token in records && !records[token].isRevoked && records[token].expiresAt > nowMs) {
        return Err(NotFoundOrRevoked);
      }
      var signature := VerifyRefreshToken(s, cfg, token, nowMs);
      if signature.Err? {
        return Err(BadSignature);
      }
      r := Ok(records[token]);
    }

    /** `revokeRefreshToken(token)`. */
    method Revoke(token: string)
      requires Valid()
      modifies this
      ensures Valid() && records == RevokedOne(old(records), token)
    {
      if token in records {
        records := records[token := records[token].(isRevoked := true)];
      }
    }

    /** `revokeAllUserTokens(userId)`. */
    method RevokeAll(userId: string)
      requires Valid()
      modifies this
      ensures Valid() && records == RevokedAll(old(records), userId)
    {
      records := map t | t in records :: if records[t].userId == userId then records[t].(isRevoked := true) else records[t];
    }

    /** `cleanupExpiredTokens()` at `nowMs`. */
    method CleanupExpired(nowMs: int)
      requires Valid()
      modifies this
      ensures Valid() && records == Swept(old(records), nowMs)
    {
      records := map t | t in records && !(records[t].expiresAt < nowMs) :: records[t];
    }
  }

  /** A freshly saved record is live until the configured number of days has passed. */
  lemma SavedRecordLive(m: Table, userId: string, token: string, deviceInfo: DeviceInfo, savedMs: int, days: int, nowMs: int)
    requires token !in m
    requires nowMs < savedMs + days * DayMs
    ensures var ins := Inserted(m, NewRecord(userId, token, deviceInfo, savedMs, days));
      ins.Ok? && Live(ins.value, token, nowMs)
  {
  }

  /** Revoking is idempotent, and afterwards the token is never live again. */
  lemma RevokeKillsToken(m: Table, token: string, nowMs: int)
    ensures RevokedOne(RevokedOne(m, token), token) == RevokedOne(m, token)
    ensures !Live(RevokedOne(m, token), token, nowMs)
  {
    if token in m {
      assert RevokedOne(RevokedOne(m, token), token) == RevokedOne(m, token);
    }
  }

  /** Revoking one token leaves the liveness of every other token as it was. */
  lemma RevokeKeepsOthers(m: Table, token: string, other: string, nowMs: int)
    requires other != token
    ensures Live(RevokedOne(m, token), other, nowMs) <==> Live(m, other, nowMs)
  {
  }

  /** After revoking all of a user's tokens none of them is live, and other users' tokens
      are live exactly when they were. */
  lemma RevokeAllKillsUser(m: Table, userId: string, t: string, nowMs: int)
    requires t in m
    ensures m[t].userId == userId ==> !Live(RevokedAll(m, userId), t, nowMs)
    ensures m[t].userId != userId ==> (Live(RevokedAll(m, userId), t, nowMs) <==> Live(m, t, nowMs))
  {
  }

  /** The sweep removes nothing that could still be live: at any time from the sweep on, a
      token is live afterwards exactly when it was live before. */
  lemma SweepKeepsLiveness(m: Table, sweptMs: int, t: string, nowMs: int)
    requires nowMs >= sweptMs
    ensures Live(Swept(m, sweptMs), t, nowMs) <==> Live(m, t, nowMs)
  {
  }

  /** A record expiring exactly at the sweep time is kept by the sweep, yet it already fails
      the liveness check (which needs `expiresAt > now`). */
  lemma BoundaryRecordKeptButDead(m: Table, t: string, nowMs: int)
    requires t in m && m[t].expiresAt == nowMs
    ensures t in Swept(m, nowMs) && !Live(Swept(m, nowMs), t, nowMs)
  {
  }

  /** Sweeping twice at the same time is sweeping once, and a swept table stays keyed. */
  lemma SweepIdempotent(m: Table, nowMs: int)
    ensures Swept(Swept(m, nowMs), nowMs) == Swept(m, nowMs)
    ensures Keyed(m) ==> Keyed(Swept(m, nowMs))
  {
    assert Swept(Swept(m, nowMs), nowMs).Keys == Swept(m, nowMs).Keys;
  }
}
