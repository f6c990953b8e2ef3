/**
  * The account handlers — register, login, refresh, logout and profile — as steps over the
  * user collection and the refresh-token collection. Each handler is specified by a function
  * from the state before to the state after plus its outcome; the class `AuthApp` carries out
  * the same steps on mutable collections and is proved to agree with those functions.
  */
module AuthController {
  import opened Common
  import opened JsText
  import opened Json
  import opened Tokens
  import opened RefreshStore
  import ErrorHandler

  /** A stored account. `passwordHash` is what the account model keeps instead of the password. */
  datatype User = User(id: string, email: string, passwordHash: string, role: string, isActive: bool, lastLogin: Option<int>)

  /** The one-way password scheme of the account model: `hash` when saving, `matches(password,
      hash)` for `comparePassword`. */
  datatype Passwords = Passwords(hash: string -> string, matches: (string, string) -> bool)

  /** What the model assumes of the scheme: a password matches its own hash. */
  ghost predicate PasswordsSound(pw: Passwords)
  {
    forall p: string :: pw.matches(p, pw.hash(p))
  }

  /** The collaborators and settings the handlers use. `isEmail` is Joi's e-mail format test. */
  datatype Services = Services(
    signer: Signer,
    passwords: Passwords,
    tokens: TokenConfig,
    accessTokenExpiry: string,
    isEmail: string -> bool)

  type Users = map<string, User>

  /** Accounts are keyed by id, and no two accounts share an e-mail address. */
  ghost predicate UsersValid(users: Users)
  {
    && (forall id :: id in users ==> users[id].id == id)
    && (forall a, b :: a in users && b in users && users[a].email == users[b].email ==> a == b)
  }

  datatype AuthState = AuthState(users: Users, tokens: Table)

  ghost predicate StateValid(st: AuthState)
  {
    UsersValid(st.users) && Keyed(st.tokens)
  }

  // ---------------------------------------------------------------- request bodies

  /** `registerSchema`: exactly the keys `email` and `password`, both non-empty strings, the
      e-mail well formed and the password at least 6 characters long. */
  function RegisterBody(svc: Services, body: Json): (r: Option<(string, string)>)
    ensures r.Some? ==> svc.isEmail(r.value.0) && |r.value.1| >= 6
  {
    if body.Obj? && body.fields.Keys <= {"email", "password"}
       && "email" in body.fields && JoiString(body.fields["email"]) && svc.isEmail(body.fields["email"].s)
       && "password" in body.fields && JoiString(body.fields["password"]) && |body.fields["password"].s| >= 6
    then Some((body.fields["email"].s, body.fields["password"].s))
    else None
  }

  /** `loginSchema`: as for registering, with no length rule on the password. */
  function LoginBody(svc: Services, body: Json): (r: Option<(string, string)>)
    ensures r.Some? ==> svc.isEmail(r.value.0) && r.value.1 != ""
    ensures RegisterBody(svc, body).Some? ==> r == RegisterBody(svc, body)
  {
    if body.Obj? && body.fields.Keys <= {"email", "password"}
       && "email" in body.fields && JoiString(body.fields["email"]) && svc.isEmail(body.fields["email"].s)
       && "password" in body.fields && JoiString(body.fields["password"])
    then Some((body.fields["email"].s, body.fields["password"].s))
    else None
  }

  /** The refresh schema: exactly one key, `refreshToken`, a non-empty string. */
  function RefreshBody(body: Json): (r: Option<string>)
    ensures r.Some? ==> r.value != ""
  {
    if body.Obj? && body.fields.Keys <= {"refreshToken"}
       && "refreshToken" in body.fields && JoiString(body.fields["refreshToken"])
    then Some(body.fields["refreshToken"].s)
    else None
  }

  /** The error thrown when a body fails its schema (Joi's own wording is not modelled). */
  function SchemaFailure(): ErrorHandler.ErrorRecord
  {
    ErrorHandler.AuthError("Validation failed", 400)
  }

  // ---------------------------------------------------------------- replies

  /** The user as it appears in replies: never the password or its hash. */
  datatype PublicUser = PublicUser(id: string, email: string, role: string)

  function Public(u: User): PublicUser
  {
    PublicUser(u.id, u.email, u.role)
  }

  datatype TokenBundle = TokenBundle(accessToken: string, refreshToken: string, accessTokenExpiry: string, refreshTokenExpiry: string)

  datatype Reply =
    | Registered(user: PublicUser, tokens: TokenBundle)
    | LoggedIn(user: PublicUser, tokens: TokenBundle)
    | Refreshed(accessToken: string, accessTokenExpiry: string)
    | LoggedOut
    | Profile(user: PublicUser)

  function ReplyStatus(r: Reply): int
  {
    if r.Registered? then 201 else 200
  }

  /** A handler's effect: the collections afterwards and what the client gets. */
  datatype Step = Step(state: AuthState, outcome: Result<Reply, ErrorHandler.ErrorRecord>)

  /** The account with this e-mail address, if any. */
  function FindByEmail(users: Users, email: string): (r: Option<string>)
    requires UsersValid(users)
    ensures r.Some? ==> r.value in users && users[r.value].email == email
    ensures r.None? ==> forall id :: id in users ==> users[id].email != email
  {
    var ids := set id | id in users && users[id].email == email;
    if ids == {} then
      assert forall id :: id in users && users[id].email == email ==> id in ids;
      None
    else
      var id :| id in ids;
      Some(id)
  }

  /** Addresses are unique, so the lookup finds the one account that holds the address. */
  lemma FindsTheHolder(users: Users, id: string, email: string)
    requires UsersValid(users) && id in users && users[id].email == email
    ensures FindByEmail(users, email) == Some(id)
  {
  }

  /** Tokens for an account at `nowMs`, and the expiry descriptors that go with them. */
  function Bundle(svc: Services, u: User, nowMs: int): (b: TokenBundle)
    ensures b.accessToken == GenerateAccessToken(svc.signer, svc.tokens, u.id, u.email, u.role, nowMs)
    ensures b.refreshToken == GenerateRefreshToken(svc.signer, svc.tokens, u.id, u.email, u.role, nowMs)
  {
    TokenBundle(
      GenerateAccessToken(svc.signer, svc.tokens, u.id, u.email, u.role, nowMs),
      GenerateRefreshToken(svc.signer, svc.tokens, u.id, u.email, u.role, nowMs),
      svc.accessTokenExpiry,
      IntToString(svc.tokens.refreshDays) + " days")
  }

  /** What both register and login do once they hold an account: issue both tokens, save the
      refresh token (which the unique index may refuse), then record the login time. */
  function Issue(svc: Services, users: Users, tokens: Table, u: User, device: DeviceInfo, nowMs: int, registered: bool): (s: Step)
    requires u.id in users
  {
    var b := Bundle(svc, u, nowMs);
    match Inserted(tokens, NewRecord(u.id, b.refreshToken, device, nowMs, svc.tokens.refreshDays))
    case Err(e) => Step(AuthState(users, tokens), Err(e))
    case Ok(tokens') =>
      var u' := u.(lastLogin := Some(nowMs));
      Step(AuthState(users[u.id := u'], tokens'), Ok(if registered then Registered(Public(u'), b) else LoggedIn(Public(u'), b)))
  }

  /** `register`. `newId` is the id the database gives the new account. */
  function RegisterStep(svc: Services, st: AuthState, body: Json, newId: string, device: DeviceInfo, nowMs: int): Step
    requires StateValid(st) && newId !in st.users
  {
    match RegisterBody(svc, body)
    case None => Step(st, Err(SchemaFailure()))
    case Some((email, password)) =>
      if FindByEmail(st.users, email).Some? then
        Step(st, Err(ErrorHandler.AuthError("User with this email already exists", 409)))
      else
        var u := User(newId, email, svc.passwords.hash(password), "user", true, None);
        Issue(svc, st.users[newId := u], st.tokens, u, device, nowMs, true)
  }

  const BadCredentials := "Invalid email or password"

  /** `login`: only an active account with a matching password gets tokens. */
  function LoginStep(svc: Services, st: AuthState, body: Json, device: DeviceInfo, nowMs: int): Step
    requires StateValid(st)
  {
    match LoginBody(svc, body)
    case None => Step(st, Err(SchemaFailure()))
    case Some((email, password)) =>
      var found := FindByEmail(st.users, email);
      if found.None? || !st.users[found.value].isActive then
        Step(st, Err(ErrorHandler.AuthError(BadCredentials, 401)))
      else
        var u := st.users[found.value];
        if !svc.passwords.matches(password, u.passwordHash) then
          Step(st, Err(ErrorHandler.AuthError(BadCredentials, 401)))
        else
          Issue(svc, st.users, st.tokens, u, device, nowMs, false)
  }

  /** `refreshToken`: signature first, then the stored record, then the account; only a new
      access token is issued, from the account as it is now. Nothing is written. */
  function RefreshStep(svc: Services, st: AuthState, body: Json, nowMs: int): Step
  {
    match RefreshBody(body)
    case None => Step(st, Err(SchemaFailure()))
    case Some(token) =>
      match VerifyRefreshToken(svc.signer, svc.tokens, token, nowMs)
      case Err(message) => Step(st, Err(ErrorHandler.PlainError(message)))
      case Ok(decoded) =>
        match CheckStored(svc.signer, svc.tokens, st.tokens, token, nowMs)
        case Err(message) => Step(st, Err(ErrorHandler.PlainError(message)))
        case Ok(_) =>
          var id := decoded.claims.userId;
          if id !in st.users || !st.users[id].isActive then
            Step(st, Err(ErrorHandler.AuthError("User not found or inactive", 401)))
          else
            var u := st.users[id];
            Step(st, Ok(Refreshed(GenerateAccessToken(svc.signer, svc.tokens, u.id, u.email, u.role, nowMs), svc.accessTokenExpiry)))
  }

  /** `logout`: a truthy `refreshToken` string in the body is revoked; the answer is the same
      either way. */
  function LogoutStep(st: AuthState, body: Json): Step
  {
    if body.Obj? && "refreshToken" in body.fields && body.fields["refreshToken"].Str? && body.fields["refreshToken"].s != "" then
      Step(st.(tokens := RevokedOne(st.tokens, body.fields["refreshToken"].s)), Ok(LoggedOut))
    else
      Step(st, Ok(LoggedOut))
  }

  /** `getProfile` for the identity the guard attached. */
  function ProfileStep(st: AuthState, userId: string): Step
  {
    if userId in st.users then Step(st, Ok(Profile(Public(st.users[userId]))))
    else Step(st, Err(ErrorHandler.AuthError("User not found", 404)))
  }

  // ---------------------------------------------------------------- properties

  /** A body that fails its schema is answered 400 before either collection is read or
      written. */
  lemma SchemaFailureIs400(svc: Services, st: AuthState, body: Json, newId: string, device: DeviceInfo, nowMs: int, nodeEnv: Option<string>)
    requires StateValid(st) && newId !in st.users
    ensures RegisterBody(svc, body).None? ==> RegisterStep(svc, st, body, newId, device, nowMs) == Step(st, Err(SchemaFailure()))
    ensures LoginBody(svc, body).None? ==> LoginStep(svc, st, body, device, nowMs) == Step(st, Err(SchemaFailure()))
    ensures RefreshBody(body).None? ==> RefreshStep(svc, st, body, nowMs) == Step(st, Err(SchemaFailure()))
    ensures ErrorHandler.Handle(SchemaFailure(), nodeEnv).status == 400
  {
  }

  /** Registering an address some account already has — active or not — answers 409 and
      creates neither an account nor a token. */
  lemma DuplicateRegistration(svc: Services, st: AuthState, body: Json, newId: string, device: DeviceInfo, nowMs: int, holder: string, nodeEnv: Option<string>)
    requires StateValid(st) && newId !in st.users
    requires RegisterBody(svc, body).Some? && holder in st.users && st.users[holder].email == RegisterBody(svc, body).value.0
    ensures var s := RegisterStep(svc, st, body, newId, device, nowMs);
      s.state == st && s.outcome.Err? && ErrorHandler.Handle(s.outcome.error, nodeEnv).status == 409
  {
  }

  /** A successful registration adds one active account with role `user` and the hashed
      password, and one unrevoked refresh-token record for it; the reply is 201 and carries
      the account's id, e-mail and role only. */
  lemma RegistrationCreates(svc: Services, st: AuthState, body: Json, newId: string, device: DeviceInfo, nowMs: int)
    requires StateValid(st) && newId !in st.users
    requires RegisterStep(svc, st, body, newId, device, nowMs).outcome.Ok?
    ensures var s := RegisterStep(svc, st, body, newId, device, nowMs);
      var (email, password) := RegisterBody(svc, body).value;
      && s.state.users.Keys == st.users.Keys + {newId}
      && (forall id :: id in st.users ==> s.state.users[id] == st.users[id])
      && s.state.users[newId] == User(newId, email, svc.passwords.hash(password), "user", true, Some(nowMs))
      && s.outcome.value == Registered(PublicUser(newId, email, "user"), Bundle(svc, s.state.users[newId], nowMs))
      && ReplyStatus(s.outcome.value) == 201
      && var token := s.outcome.value.tokens.refreshToken;
         && s.state.tokens.Keys == st.tokens.Keys + {token} && token !in st.tokens
         && s.state.tokens[token] == NewRecord(newId, token, device, nowMs, svc.tokens.refreshDays)
         && (forall t :: t in st.tokens ==> s.state.tokens[t] == st.tokens[t])
  {
  }

  /** Registration keeps the collections valid: ids stay keys and addresses stay unique. */
  lemma RegisterKeepsValid(svc: Services, st: AuthState, body: Json, newId: string, device: DeviceInfo, nowMs: int)
    requires StateValid(st) && newId !in st.users
    ensures StateValid(RegisterStep(svc, st, body, newId, device, nowMs).state)
  {
    var s := RegisterStep(svc, st, body, newId, device, nowMs);
    if RegisterBody(svc, body).Some? && FindByEmail(st.users, RegisterBody(svc, body).value.0).None? {
      var email := RegisterBody(svc, body).value.0;
      var u := User(newId, email, svc.passwords.hash(RegisterBody(svc, body).value.1), "user", true, None);
      var users := st.users[newId := u];
      assert UsersValid(users);
      IssueKeepsValid(svc, users, st.tokens, u, device, nowMs, true);
    }
  }

  lemma IssueKeepsValid(svc: Services, users: Users, tokens: Table, u: User, device: DeviceInfo, nowMs: int, registered: bool)
    requires UsersValid(users) && Keyed(tokens) && u.id in users && users[u.id] == u
    ensures StateValid(Issue(svc, users, tokens, u, device, nowMs, registered).state)
  {
    var s := Issue(svc, users, tokens, u, device, nowMs, registered);
    if s.outcome.Ok? {
      var users' := s.state.users;
      forall a, b | a in users' && b in users' && users'[a].email == users'[b].email
        ensures a == b
      {
        assert users'[a].email == users[a].email && users'[b].email == users[b].email;
      }
    }
  }

  /** Login refuses an unknown address, an inactive account and a wrong password with the
      same 401 error, and changes nothing. */
  lemma LoginRefusals(svc: Services, st: AuthState, body: Json, device: DeviceInfo, nowMs: int, nodeEnv: Option<string>)
    requires StateValid(st) && LoginBody(svc, body).Some?
    requires var (email, password) := LoginBody(svc, body).value;
      forall id :: id in st.users && st.users[id].email == email ==>
        !st.users[id].isActive || !svc.passwords.matches(password, st.users[id].passwordHash)
    ensures var s := LoginStep(svc, st, body, device, nowMs);
      && s == Step(st, Err(ErrorHandler.AuthError(BadCredentials, 401)))
      && ErrorHandler.Handle(s.outcome.error, nodeEnv).status == 401
  {
  }

  /** A successful login adds exactly one refresh-token record and changes only the
      account's `lastLogin`. */
  lemma LoginUpdates(svc: Services, st: AuthState, body: Json, device: DeviceInfo, nowMs: int)
    requires StateValid(st)
    requires LoginStep(svc, st, body, device, nowMs).outcome.Ok?
    ensures var s := LoginStep(svc, st, body, device, nowMs);
      var id := FindByEmail(st.users, LoginBody(svc, body).value.0).value;
      var token := s.outcome.value.tokens.refreshToken;
      && s.outcome.value.LoggedIn?
      && st.users[id].isActive
      && s.state.users == st.users[id := st.users[id].(lastLogin := Some(nowMs))]
      && token !in st.tokens && s.state.tokens == st.tokens[token := NewRecord(id, token, device, nowMs, svc.tokens.refreshDays)]
  {
  }

  /** Two logins of the same account within the same second mint the same refresh token, so
      the second one is refused by the unique index and answers 409, changing nothing. */
  lemma SameSecondLoginConflicts(svc: Services, st: AuthState, body: Json, device: DeviceInfo, device2: DeviceInfo, firstMs: int, secondMs: int, nodeEnv: Option<string>)
    requires StateValid(st)
    requires LoginStep(svc, st, body, device, firstMs).outcome.Ok?
    requires EpochSeconds(firstMs) == EpochSeconds(secondMs)
    ensures var st1 := LoginStep(svc, st, body, device, firstMs).state;
      StateValid(st1) &&
      var s2 := LoginStep(svc, st1, body, device2, secondMs);
      s2.state == st1 && s2.outcome.Err? && ErrorHandler.Handle(s2.outcome.error, nodeEnv).status == 409
  {
    var s1 := LoginStep(svc, st, body, device, firstMs);
    var (email, password) := LoginBody(svc, body).value;
    var id := FindByEmail(st.users, email).value;
    var u := st.users[id];
    assert s1 == Issue(svc, st.users, st.tokens, u, device, firstMs, false);
    IssueKeepsValid(svc, st.users, st.tokens, u, device, firstMs, false);
    var st1 := s1.state;
    var u1 := u.(lastLogin := Some(firstMs));
    assert st1.users == st.users[id := u1];
    assert Bundle(svc, u, firstMs).refreshToken in st1.tokens;
    FindsTheHolder(st1.users, id, email);
    assert LoginStep(svc, st1, body, device2, secondMs) == Issue(svc, st1.users, st1.tokens, u1, device2, secondMs, false);
    SameSecondSameRefreshToken(svc.signer, svc.tokens, u.id, u.email, u.role, firstMs, secondMs);
    IssueRefused(svc, st1.users, st1.tokens, u1, device2, secondMs, false);
  }

  /** Issuing for an account whose refresh token is already stored is refused by the unique
      index: nothing changes and the duplicate-key error is reported. */
  lemma IssueRefused(svc: Services, users: Users, tokens: Table, u: User, device: DeviceInfo, nowMs: int, registered: bool)
    requires u.id in users
    requires Bundle(svc, u, nowMs).refreshToken in tokens
    ensures Issue(svc, users, tokens, u, device, nowMs, registered) == Step(AuthState(users, tokens), Err(ErrorHandler.DuplicateKeyError()))
  {
  }

  /** Registering and then logging in with the same body, at a later second, logs into the
      account just created, provided the refresh token the login mints is not stored already
      (if it were, the unique index would refuse the login as `SameSecondLoginConflicts` shows). */
  lemma RegisterThenLogin(svc: Services, st: AuthState, body: Json, newId: string, device: DeviceInfo, registerMs: int, loginMs: int)
    requires StateValid(st) && newId !in st.users
    requires Sound(svc.signer) && PasswordsSound(svc.passwords)
    requires RegisterStep(svc, st, body, newId, device, registerMs).outcome.Ok?
    requires RegisterBody(svc, body).Some?
    requires GenerateRefreshToken(svc.signer, svc.tokens, newId, RegisterBody(svc, body).value.0, "user", loginMs) !in st.tokens
    requires EpochSeconds(registerMs) != EpochSeconds(loginMs)
    ensures var st1 := RegisterStep(svc, st, body, newId, device, registerMs).state;
      StateValid(st1) &&
      var s2 := LoginStep(svc, st1, body, device, loginMs);
      var (email, _) := RegisterBody(svc, body).value;
      s2.outcome.Ok? && s2.outcome.value.user == PublicUser(newId, email, "user")
  {
    RegisterKeepsValid(svc, st, body, newId, device, registerMs);
    var st1 := RegisterStep(svc, st, body, newId, device, registerMs).state;
    var (email, password) := RegisterBody(svc, body).value;
    assert LoginBody(svc, body) == Some((email, password));
    RegistrationCreates(svc, st, body, newId, device, registerMs);
    FindsTheHolder(st1.users, newId, email);
    var u1 := st1.users[newId];
    var first := GenerateRefreshToken(svc.signer, svc.tokens, newId, email, "user", registerMs);
    var second := GenerateRefreshToken(svc.signer, svc.tokens, newId, email, "user", loginMs);
    DistinctSecondsDistinctTokens(svc, newId, email, "user", registerMs, loginMs);
  }

  /** Under a sound signer, refresh tokens issued in different seconds differ. */
  lemma DistinctSecondsDistinctTokens(svc: Services, userId: string, email: string, role: string, firstMs: int, secondMs: int)
    requires Sound(svc.signer) && EpochSeconds(firstMs) != EpochSeconds(secondMs)
    ensures GenerateRefreshToken(svc.signer, svc.tokens, userId, email, role, firstMs)
         != GenerateRefreshToken(svc.signer, svc.tokens, userId, email, role, secondMs)
  {
    var s, cfg := svc.signer, svc.tokens;
    var p1 := Payload(Claims(userId, email, role, RefreshKind), EpochSeconds(firstMs), EpochSeconds(firstMs) + cfg.refreshDays * SecondsPerDay);
    var p2 := Payload(Claims(userId, email, role, RefreshKind), EpochSeconds(secondMs), EpochSeconds(secondMs) + cfg.refreshDays * SecondsPerDay);
    assert s.decode(s.sign(p1, cfg.refreshSecret), cfg.refreshSecret) == Some(p1);
    assert s.decode(s.sign(p2, cfg.refreshSecret), cfg.refreshSecret) == Some(p2);
  }

  /** Refreshing never writes. When it succeeds, the new access token is built from the
      account as stored now (not from the claims in the refresh token), which must be active,
      and the refresh token was both validly signed and live in the collection. */
  lemma RefreshReadsOnly(svc: Services, st: AuthState, body: Json, nowMs: int)
    ensures var s := RefreshStep(svc, st, body, nowMs);
      && s.state == st
      && (s.outcome.Ok? ==>
            var token := RefreshBody(body).value;
            var decoded := VerifyRefreshToken(svc.signer, svc.tokens, token, nowMs);
            && decoded.Ok? && Live(st.tokens, token, nowMs)
            && var u := st.users[decoded.value.claims.userId];
               && u.isActive
               && s.outcome.value == Refreshed(GenerateAccessToken(svc.signer, svc.tokens, u.id, u.email, u.role, nowMs), svc.accessTokenExpiry))
  {
  }

  /** A refresh token that fails its checks — forged, expired, revoked or never stored — is
      reported through a plain error, which the error handler answers with 500. */
  lemma RefreshFailuresAre500(svc: Services, st: AuthState, body: Json, nowMs: int, nodeEnv: Option<string>)
    requires RefreshBody(body).Some?
    requires var token := RefreshBody(body).value;
      VerifyRefreshToken(svc.signer, svc.tokens, token, nowMs).Err? || !Live(st.tokens, token, nowMs)
    ensures var s := RefreshStep(svc, st, body, nowMs);
      s.outcome.Err? && ErrorHandler.Handle(s.outcome.error, nodeEnv).status == 500
  {
  }

  /** Logging out with a token revokes that record and nothing else, after which the token
      can no longer be refreshed; the answer is the same whether or not the token existed. */
  lemma LogoutRevokes(st: AuthState, body: Json, token: string, svc: Services, laterMs: int)
    requires body.Obj? && "refreshToken" in body.fields && body.fields["refreshToken"] == Str(token) && token != ""
    ensures var s := LogoutStep(st, body);
      && s.outcome == Ok(LoggedOut)
      && s.state == st.(tokens := RevokedOne(st.tokens, token))
      && !Live(s.state.tokens, token, laterMs)
      && RefreshStep(svc, s.state, body, laterMs).outcome.Err?
  {
    RevokeKillsToken(st.tokens, token, laterMs);
  }

  /** Without a truthy `refreshToken` in the body, logging out changes nothing. */
  lemma LogoutWithoutToken(st: AuthState, body: Json)
    requires !(body.Obj? && "refreshToken" in body.fields && Truthy(body.fields["refreshToken"]))
    ensures LogoutStep(st, body) == Step(st, Ok(LoggedOut))
  {
  }

  /** The profile of an existing account is its public part; a missing account is 404. */
  lemma ProfileLookup(st: AuthState, userId: string, nodeEnv: Option<string>)
    requires UsersValid(st.users)
    ensures var s := ProfileStep(st, userId);
      && s.state == st
      && (userId in st.users <==> s.outcome.Ok?)
      && (s.outcome.Ok? ==> s.outcome.value == Profile(PublicUser(userId, st.users[userId].email, st.users[userId].role)))
      && (s.outcome.Err? ==> ErrorHandler.Handle(s.outcome.error, nodeEnv).status == 404)
  {
  }

  // ---------------------------------------------------------------- the handlers, step by step

  /** The two collections the handlers work on. */
  class AuthApp {
    var users: Users
    const store: TokenStore

    ghost predicate Valid()
      reads this, store
    {
      UsersValid(users) && store.Valid()
    }

    ghost function State(): AuthState
      reads this, store
    {
      AuthState(users, store.records)
    }

    constructor ()
      ensures Valid() && users == map[] && store.records == map[] && fresh(store)
    {
      users := map[];
      store := new TokenStore();
    }

    /** The tail shared by register and login: tokens, the refresh-token save, and
        `user.lastLogin = new Date(); await user.save()`. */
    method IssueTokens(svc: Services, u: User, device: DeviceInfo, nowMs: int, registered: bool)
      returns (outcome: Result<Reply, ErrorHandler.ErrorRecord>)
      requires Valid() && u.id in users && users[u.id] == u
      modifies this, store
      ensures Valid()
      ensures Step(State(), outcome) == Issue(svc, old(users), old(store.records), u, device, nowMs, registered)
    {
      var bundle := Bundle(svc, u, nowMs);
      var saved := store.Save(u.id, bundle.refreshToken, device, nowMs, svc.tokens.refreshDays);
      if saved.Err? {
        return Err(saved.error);
      }
      var u' := u.(lastLogin := Some(nowMs));
      users := users[u.id := u'];
      assert forall id :: id in users ==> users[id].email == old(users)[id].email;
      outcome := Ok(if registered then Registered(Public(u'), bundle) else LoggedIn(Public(u'), bundle));
    }

    /** `register(req, res, next)`. */
    method Register(svc: Services, body: Json, newId: string, device: DeviceInfo, nowMs: int)
      returns (outcome: Result<Reply, ErrorHandler.ErrorRecord>)
      requires Valid() && newId !in users
      modifies this, store
      ensures Valid()
      ensures Step(State(), outcome) == RegisterStep(svc, old(State()), body, newId, device, nowMs)
    {
      var parsed := RegisterBody(svc, body);
      if parsed.None? {
        return Err(SchemaFailure());
      }
      var (email, password) := parsed.value;
      var existing := FindByEmail(users, email);
      if existing.Some? {
        return Err(ErrorHandler.AuthError("User with this email already exists", 409));
      }
      var u := User(newId, email, svc.passwords.hash(password), "user", true, None);
      users := users[newId := u];
      outcome := IssueTokens(svc, u, device, nowMs, true);
    }

    /** `login(req, res, next)`. */
    method Login(svc: Services, body: Json, device: DeviceInfo, nowMs: int)
      returns (outcome: Result<Reply, ErrorHandler.ErrorRecord>)
      requires Valid()
      modifies this, store
      ensures Valid()
      ensures Step(State(), outcome) == LoginStep(svc, old(State()), body, device, nowMs)
    {
      var parsed := LoginBody(svc, body);
      if parsed.None? {
        return Err(SchemaFailure());
      }
      var (email, password) := parsed.value;
      var found := FindByEmail(users, email);
      if found.None? || !users[found.value].isActive {
        return Err(ErrorHandler.AuthError(BadCredentials, 401));
      }
      var u := users[found.value];
      if !svc.passwords.matches(password, u.passwordHash) {
        return Err(ErrorHandler.AuthError(BadCredentials, 401));
      }
      outcome := IssueTokens(svc, u, device, nowMs, false);
    }

    /** `refreshToken(req, res, next)`: reads both collections, writes neither. */
    method Refresh(svc: Services, body: Json, nowMs: int) returns (outcome: Result<Reply, ErrorHandler.ErrorRecord>)
      requires Valid()
      ensures Step(State(), outcome) == RefreshStep(svc, State(), body, nowMs)
    {
      var token := RefreshBody(body);
      if token.None? {
        return Err(SchemaFailure());
      }
      var decoded := VerifyRefreshToken(svc.signer, svc.tokens, token.value, nowMs);
      if decoded.Err? {
        return Err(ErrorHandler.PlainError(decoded.error));
      }
      var stored := store.VerifyFromDB(svc.signer, svc.tokens, token.value, nowMs);
      if stored.Err? {
        return Err(ErrorHandler.PlainError(stored.error));
      }
      var id := decoded.value.claims.userId;
      if id !in users || !users[id].isActive {
        return Err(ErrorHandler.AuthError("User not found or inactive", 401));
      }
      var u := users[id];
      outcome := Ok(Refreshed(GenerateAccessToken(svc.signer, svc.tokens, u.id, u.email, u.role, nowMs), svc.accessTokenExpiry));
    }

    /** `logout(req, res, next)`. */
    method Logout(body: Json) returns (outcome: Result<Reply, ErrorHandler.ErrorRecord>)
      requires Valid()
      modifies store
      ensures Valid()
      ensures Step(State(), outcome) == LogoutStep(old(State()), body)
    {
      if body.Obj? && "refreshToken" in body.fields && body.fields["refreshToken"].Str? && body.fields["refreshToken"].s != "" {
        store.Revoke(body.fields["refreshToken"].s);
      }
      outcome := Ok(LoggedOut);
    }

    /** `getProfile(req, res, next)`. */
    method GetProfile(userId: string) returns (outcome: Result<Reply, ErrorHandler.ErrorRecord>)
      ensures Step(State(), outcome) == ProfileStep(State(), userId)
    {
      if userId in users {
        outcome := Ok(Profile(Public(users[userId])));
      } else {
        outcome := Err(ErrorHandler.AuthError("User not found", 404));
      }
    }
  }
}
