# Chat gateway core, modelled in Dafny

This project models the core of an Express back end that authenticates users and forwards
chat requests to a large-language-model API. It covers:

- **Token service.** Access and refresh JWTs are signed with separate secrets and told apart
  by their `type` claim. The `RefreshToken` collection is modelled with its unique token
  index, its liveness query, single and per-user revocation, and the sweep of expired records.
- **Account handlers.** Register, login, refresh, logout and profile are each a step from the
  user and token collections before to the collections after plus the answer. A class holding
  the two collections runs the same steps and is proved to agree with them.
- **Access guard.** The bearer token comes from the `Authorization` header. The required and
  optional authentication steps attach an identity to the request, and a role gate follows.
- **Global error handler.** An ordered chain of tests picks the status and the JSON envelope.
- **Configuration.** String and boolean lookups with their defaults, and the production-only
  check of the required secrets.
- **Request-size gate.** The `parseSize` parser (`5mb`, `1.5 KB`, …) and the 413 answer.
- **Entry point (`index.js`).** The rate limiter's client key, its 429 answer and the 404
  answer.
- **First chat API.** The text handler covers the schema, message and context limits, the
  system prompt and the retry loop with exponential back-off. The image handler covers the
  upload checks, in order, and the same retry loop.
- **Second chat API.** An in-memory conversation store and its two handlers.

Collaborators that the code reaches over the network or through libraries are parameters of
the model:

- The JWT signature scheme is a `Signer` pair of functions with one stated assumption, `Sound`.
- The password hash is a `Passwords` pair, assumed sound through `PasswordsSound`.
- The AI service is `api: nat -> ApiOutcome`, the answer to the k-th call.
- The language model of the second API is a function from request to answer.
- The database's choice of a new account id, the identifier generator, and the clock are
  arguments (`newId`, `freshId`, `nowMs` in milliseconds).

Three behaviours of the code differ from what its design suggests. The model keeps each of them as written:

- A failed refresh (bad signature, expired, revoked or unknown token) is thrown as a plain
  `Error`. The error handler therefore answers 500, not the 401 the route is meant to give (`RefreshFailuresAre500`).
- The refreshed access token is built from the account as stored now. It is not built from
  the claims inside the refresh token (`RefreshReadsOnly`). The two agree unless the
  account's e-mail or role changed in between.
- Tokens carry no random part. Two logins of the same account within one second mint the
  same refresh token. The unique index then refuses the second save, and that login answers
  409 (`SameSecondLoginConflicts`).

## Model

| member | source | states |
|---|---|---|
| Tokens.JwtVerify | services/authService.js:34-57 | a payload comes back only when the signature checks under the secret and the current second is before `exp`; otherwise the signature failed or the token expired |
| Tokens.VerifyKind | services/authService.js:34-57 | success exactly when the token verifies and its `type` claim is the expected kind; every failure carries the one fixed message |
| Tokens.VerifyAccessToken | services/authService.js:34-44 | an accepted token is an unexpired `access` token signed with the access secret; a refusal says "Invalid or expired access token" |
| Tokens.VerifyRefreshToken | services/authService.js:47-57 | an accepted token is an unexpired `refresh` token signed with the refresh secret; a refusal says "Invalid or expired refresh token" |
| Tokens.AccessRoundTrip | services/authService.js:6-17 | a generated access token verifies, until its lifetime ends, to exactly the claims it was issued with |
| Tokens.RefreshRoundTrip | services/authService.js:20-31 | a generated refresh token verifies, for the configured number of days, to exactly its claims |
| Tokens.AccessTokenExpires | services/authService.js:6-17 | from its expiry second on, an access token is refused |
| Tokens.RefreshTokenIsNotAccess | services/authService.js:34-44 | a refresh token never verifies as an access token, even when both secrets are equal |
| Tokens.AccessTokenIsNotRefresh | services/authService.js:47-57 | an access token never verifies as a refresh token |
| RefreshStore.NewRecord | services/authService.js:60-73 | the saved document is unrevoked, created now, and expires the configured number of days later |
| RefreshStore.Inserted | models/RefreshToken.js:9-13 | the insert adds the record unless its token is already stored, when the unique index refuses it and nothing changes |
| RefreshStore.CheckStored | services/authService.js:76-97 | a record comes back only when it is stored, unrevoked, expires after now, and its token also verifies as a refresh token |
| RefreshStore.RevokedOne | services/authService.js:100-105 | only the record with that token becomes revoked; keys and all other records are unchanged |
| RefreshStore.RevokedAll | services/authService.js:108-113 | exactly the records of that user become revoked; everything else is unchanged |
| RefreshStore.Swept | services/authService.js:116-120 | the records expiring before now are removed and every other record is kept as it was |
| RefreshStore.TokenStore.Save | services/authService.js:60-73 | the collection becomes the insert of the new record, or stays as it was when the unique index refuses it |
| RefreshStore.TokenStore.VerifyFromDB | services/authService.js:76-97 | answers the liveness check and leaves the collection unchanged |
| RefreshStore.TokenStore.Revoke | services/authService.js:100-105 | the collection becomes the one with that token revoked |
| RefreshStore.TokenStore.RevokeAll | services/authService.js:108-113 | the collection becomes the one with all of that user's tokens revoked |
| RefreshStore.TokenStore.CleanupExpired | services/authService.js:116-120 | the collection becomes the swept one |
| RefreshStore.SavedRecordLive | services/authService.js:60-97 | a freshly saved record is live until the configured number of days has passed |
| RefreshStore.RevokeKillsToken | services/authService.js:100-105 | revoking is idempotent, and a revoked token is never live again |
| RefreshStore.RevokeKeepsOthers | services/authService.js:100-105 | revoking one token leaves every other token's liveness as it was |
| RefreshStore.RevokeAllKillsUser | services/authService.js:108-113 | after a per-user revocation none of that user's tokens is live, and other users' tokens are live exactly as before |
| RefreshStore.SweepKeepsLiveness | services/authService.js:116-120 | the sweep never changes whether a token is live at any time from the sweep on |
| RefreshStore.BoundaryRecordKeptButDead | services/authService.js:76-120 | a record expiring exactly at the sweep time is kept by the sweep but already fails the liveness check |
| RefreshStore.SweepIdempotent | services/authService.js:116-120 | sweeping twice at one time is sweeping once, and the collection stays keyed by token |
| AuthController.RegisterBody | controller/authController.js:14-17 | an admitted body has a well-formed e-mail and a password of at least 6 characters |
| AuthController.LoginBody | controller/authController.js:19-22 | an admitted body has a well-formed e-mail and a non-empty password; every registration body is a login body |
| AuthController.RefreshBody | controller/authController.js:24-26 | an admitted refresh token is a non-empty string |
| AuthController.FindByEmail | controller/authController.js:49-52 | returns an account holding that address, or none when no account holds it |
| AuthController.Bundle | controller/authController.js:63-70 | the two tokens are the access and refresh tokens for that account's id, e-mail and role at that time |
| AuthController.SchemaFailureIs400 | controller/authController.js:38-48 | a body that fails its schema changes nothing and is answered 400 by register, login and refresh |
| AuthController.DuplicateRegistration | controller/authController.js:49-52 | registering an address already held, by an active account or not, answers 409 and changes nothing |
| AuthController.RegistrationCreates | controller/authController.js:55-89 | a successful registration adds one active `user` account with the hashed password and one unrevoked token record for it, and replies 201 with its id, e-mail and role only |
| AuthController.RegisterKeepsValid | controller/authController.js:38-93 | registration keeps ids as keys and e-mail addresses unique |
| AuthController.FindsTheHolder | controller/authController.js:49-52 | with unique addresses, the lookup by address finds exactly the account that holds it |
| AuthController.IssueRefused | controller/authController.js:63-74 | issuing a refresh token that is already stored is refused as a duplicate key and leaves accounts and tokens as they were |
| AuthController.IssueKeepsValid | controller/authController.js:63-74 | issuing tokens keeps the collections valid |
| AuthController.LoginRefusals | controller/authController.js:107-116 | an unknown address, an inactive account and a wrong password get the same 401 error and change nothing |
| AuthController.LoginUpdates | controller/authController.js:119-130 | a successful login adds exactly one token record and changes only the account's `lastLogin` |
| AuthController.SameSecondLoginConflicts | controller/authController.js:96-149 | a second login of the same account within the same second mints the same refresh token, is refused by the unique index with 409, and changes nothing |
| AuthController.RegisterThenLogin | controller/authController.js:38-149 | from any valid state, registering, then logging in with the same body at a later second, logs into the account just created, provided the refresh token the login mints is not stored already |
| AuthController.DistinctSecondsDistinctTokens | services/authService.js:20-31 | under a sound signer, refresh tokens issued in different seconds differ |
| AuthController.RefreshReadsOnly | controller/authController.js:152-185 | refresh never writes; on success the token was validly signed and live, the account is active, and the new access token is built from the account as stored |
| AuthController.RefreshFailuresAre500 | controller/authController.js:163-172 | a refresh token that fails either check is reported as a plain error, which the error handler answers with 500 |
| AuthController.LogoutRevokes | controller/authController.js:188-202 | logging out with a token revokes that record and no other, after which refreshing with it fails; the answer does not depend on whether the token existed |
| AuthController.LogoutWithoutToken | controller/authController.js:188-202 | without a truthy `refreshToken` logout changes nothing and still succeeds |
| AuthController.ProfileLookup | controller/authController.js:205-222 | an existing account's profile is its public part; a missing one answers 404 |
| AuthController.AuthApp.IssueTokens | controller/authController.js:63-74 | the collections and the outcome are those of the issue step |
| AuthController.AuthApp.Register | controller/authController.js:38-93 | the new collections and the outcome are those of the register step, and the collections stay valid |
| AuthController.AuthApp.Login | controller/authController.js:96-149 | the new collections and the outcome are those of the login step, and the collections stay valid |
| AuthController.AuthApp.Refresh | controller/authController.js:152-185 | the outcome is the refresh step's, and the collections are unchanged |
| AuthController.AuthApp.Logout | controller/authController.js:188-202 | the new collections and the outcome are those of the logout step |
| AuthController.AuthApp.GetProfile | controller/authController.js:205-222 | the outcome is the profile step's, and nothing changes |
| AuthGuard.BearerToken | middleware/authMiddleware.js:7-8 | a token found is non-empty and holds no space: it is one whole space-separated field of the header |
| AuthGuard.BearerTokenOfHeader | middleware/authMiddleware.js:7-8 | `<scheme> <token>` yields the token whatever the one-word scheme is |
| AuthGuard.NoBearerToken | middleware/authMiddleware.js:7-16 | a header without a space, or with nothing between the first two spaces, has no token |
| AuthGuard.Authenticate | middleware/authMiddleware.js:4-36 | admission happens exactly when a token is present and verifies as an access token, with that token's identity; otherwise the answer is 401 |
| AuthGuard.OptionalIdentity | middleware/authMiddleware.js:39-58 | the identity is present exactly when a token is present and verifies as an access token |
| AuthGuard.IssuedTokenAdmits | middleware/authMiddleware.js:4-36 | a fresh access token sent as `Bearer <token>` admits exactly the identity it was issued for until it expires |
| AuthGuard.RefreshTokenRefused | middleware/authMiddleware.js:10-35 | a refresh token presented to the guard is refused with 401 |
| AuthGuard.RequireRole | middleware/authMiddleware.js:61-81 | no identity gives 401, a role outside the list gives 403, and the request passes otherwise |
| AuthGuard.RoleGates | middleware/authMiddleware.js:84-87 | `requireAdmin` passes only administrators; `requireUser` passes users and administrators and refuses other roles with 403 |
| AuthGuard.Request.AuthenticateToken | middleware/authMiddleware.js:4-36 | on admission `req.user` is the token's identity and nothing is answered; on refusal the 401 answer is sent and `req.user` is unchanged |
| AuthGuard.Request.OptionalAuth | middleware/authMiddleware.js:39-58 | `req.user` is set exactly when a token is present and verifies, and is otherwise unchanged |
| ErrorHandler.Handle | middleware/errorHandler.js:15-143 | the status sent is the status written in the body |
| ErrorHandler.Rank | middleware/errorHandler.js:15-143 | gives each branch its position in the handler's test order, the default last |
| ErrorHandler.Classify | middleware/errorHandler.js:15-143 | the chosen branch admits the error and no earlier branch does |
| ErrorHandler.HandleTakesFirstBranch | middleware/errorHandler.js:15-143 | the answer's status is the status of the first branch, in source order, whose test admits the error |
| ErrorHandler.ValidationFamilyIs400 | middleware/errorHandler.js:15-29 | validation-type errors answer 400 whatever status or code they carry |
| ErrorHandler.MongoErrors | middleware/errorHandler.js:80-93 | under either name, `MongoError` or `MongoServerError`, a duplicate-key error answers 409 "Duplicate Error" and every other MongoDB error answers 500 "Database Error" |
| ErrorHandler.PlainErrorIs500 | middleware/errorHandler.js:133-143 | a plain error answers 500, says only "Internal Server Error" in production, and shows a stack only in development |
| ErrorHandler.RetryAfterHeader | middleware/errorHandler.js:31-44 | `Retry-After` is set only for an AI-service error with a truthy `retryAfter`, or for any 429 (60 seconds by default) |
| Config.RequireString | config/index.js:6-9 | a defined variable wins, even when empty; an undefined one gives the fallback |
| Config.LowerIsTrue | config/index.js:14 | a value lower-cases to `true` exactly when it spells `true` letter by letter in some letter case |
| Config.RequireBooleanCases | config/index.js:11-15 | an undefined variable gives the fallback; a defined one is true exactly when it spells `true` in some letter case or is `1`, so an empty one is false whatever the fallback and `yes` and `01` are false |
| Config.DefaultTexts | config/index.js:17-42 | with nothing set, the text settings are their defaults and both signing secrets are empty |
| Config.DefaultNumbers | config/index.js:17-42 | with nothing set, the number settings are their defaults |
| Config.MissingKeys | config/index.js:52 | the missing keys are exactly the listed keys whose variable is absent or empty |
| Config.MissingKeysConcat | config/index.js:52 | the filter keeps the listed order: filtering a concatenation concatenates the filtered parts |
| Config.ValidateConfigFailsIffMissing | config/index.js:45-57 | validation fails exactly when one of the three required variables is absent or empty |
| Config.ValidateConfigMessage | config/index.js:54-56 | the message names the missing variables in declared order, comma-separated |
| Config.Startup | config/index.js:60-62 | start-up fails exactly when `NODE_ENV` is `production` and validation fails |
| SizeLimit.Multiplier | middleware/timeout.js:48-53 | every unit multiplies by at least one byte |
| SizeLimit.MatchSize | middleware/timeout.js:55 | a match yields well-formed parts that spell out the whole string |
| SizeLimit.MatchSizeComplete | middleware/timeout.js:55 | every well-formed size string matches and gives its parts back |
| SizeLimit.Amount | middleware/timeout.js:59 | the amount is the exact decimal value times the unit, rounded down |
| SizeLimit.ParseSize | middleware/timeout.js:47-60 | a string that does not match gives the 5 MiB default |
| SizeLimit.WholeAmount | middleware/timeout.js:59 | a whole number of units is that number times the unit's multiplier |
| SizeLimit.ParseSizeIgnoresCase | middleware/timeout.js:55 | the parser does not depend on letter case |
| SizeLimit.ParseSizeOfRendered | middleware/timeout.js:47-60 | every well-formed size string parses to its exact amount, rounded down |
| SizeLimit.FiveMegabytes | middleware/timeout.js:47-60 | `5mb` is 5242880 bytes |
| SizeLimit.OneAndAHalfKilobytes | middleware/timeout.js:47-60 | `1.5kb` is 1536 bytes: the fraction counts |
| SizeLimit.ValidateRequestSize | middleware/timeout.js:29-44 | a refusal is the 413 answer naming the limit text |
| SizeLimit.RejectsExactlyAboveLimit | middleware/timeout.js:34 | a declared length is refused exactly when it is greater than the parsed limit; the limit itself passes |
| SizeLimit.MissingLengthPasses | middleware/timeout.js:31 | a missing or empty length header is passed on |
| SizeLimit.UnparsableLengthPasses | middleware/timeout.js:31-34 | a length header with no leading number is passed on whatever the limit |
| Gateway.ForwardedClient | index.js:43 | the client entry has no comma and neither starts nor ends with white space |
| Gateway.RateLimitKey | index.js:41-44 | the key is the forwarded client when non-empty, else the remote address when non-empty, else `req.ip` |
| Gateway.KeyIsFirstForwardedEntry | index.js:43 | behind proxies the key is the first entry, trimmed, whatever follows it |
| Gateway.BlankFirstEntryFallsBack | index.js:43 | a blank first entry falls back to the socket's address |
| Gateway.TooManyRequests | index.js:46-54 | the answer is 429 with a `Retry-After: 60` header and `retryAfter: 60` in the body |
| Gateway.LimiterAgreesWithErrorHandler | index.js:46-54 | the limiter and the error handler answer a rate-limited request with the same status, header presence and error title |
| Gateway.NotFound | index.js:62-68 | the answer is 404 without a `Retry-After`, and its message names the method and the path |
| Http.Plain | middleware/errorHandler.js:133-143 | the status line and the body's status agree, with no `Retry-After` |
| JsText.TrimStart | index.js:43 | the result is a suffix of the input that does not start with white space, after white space only |
| JsText.TrimEnd | index.js:43 | the result is a prefix of the input that does not end with white space, before white space only |
| JsText.TrimIsInfix | index.js:43 | what `trim` keeps is the input with its leading and trailing white space cut off |
| JsText.TrimEmptyIffAllSpaces | src/services/chat.service.js:39 | `trim` gives the empty string exactly when the input is all white space |
| JsText.TrimEdgesNotSpace | index.js:43 | the trimmed string neither starts nor ends with white space |
| JsText.ToLower | middleware/timeout.js:55 | lower-casing keeps the length and maps each character on its own |
| JsText.Split | middleware/authMiddleware.js:8 | there is at least one field, no field holds the separator, and the fields joined by it give the input |
| JsText.SplitJoin | index.js:43 | splitting undoes joining |
| JsText.NatToString | config/index.js:20 | the printed form is a non-empty digit string whose value is the number |
| JsText.ParseInt | config/index.js:20 | a number comes back exactly when at least one digit follows the leading white space and the optional sign; otherwise `NaN` |
| JsText.ParseIntRoundTrip | config/index.js:20 | parsing what `String(n)` prints gives `n` back |
| ChatController.ContextItem | controller/chatController.js:32-41 | an admitted item has one of the three roles and non-empty content |
| ChatController.ContextItems | controller/chatController.js:32-41 | the context is admitted exactly when every item is, and then item by item in order |
| ChatController.TextBody | controller/chatController.js:32-41 | an admitted request has a message of 1 to the maximum length, an absent or non-empty id, and at most 50 valid context items |
| ChatController.ContextItemOfJson | controller/chatController.js:32-41 | one well-formed context turn written out as JSON is admitted as that same turn |
| ChatController.ContextItemsOfJson | controller/chatController.js:32-41 | a context written out as JSON is admitted unchanged |
| ChatController.TextBodyRoundTrip | controller/chatController.js:32-41 | every request within the limits is admitted as it was written |
| ChatController.ContextLengthConcat | controller/chatController.js:56-59 | the context length is additive over any cut of the context |
| ChatController.Assembled | controller/chatController.js:69-73 | the system prompt comes first, then the context in order, then the user's message |
| ChatController.Backoffs | controller/chatController.js:90-96 | the waits are `2^n` seconds for the consecutive failure counts, one per wait |
| ChatController.Raised | controller/chatController.js:80-97 | the raised error is an AI-service error with a status, carrying a retry time exactly for 429 |
| ChatController.RetryFrom | controller/chatController.js:61-99 | the loop makes at most the allowed number of calls and waits once between consecutive calls; with no attempt allowed it calls nothing and fails |
| ChatController.FirstDecisiveCall | controller/chatController.js:61-99 | the first call that is not a 503 decides the outcome; every 503 before it was followed by its back-off wait |
| ChatController.AllUnavailable | controller/chatController.js:90-96 | when every call answers 503, exactly the allowed number of calls is made, with a wait after each but the last, and the 503 error is raised |
| ChatController.RaisedAnswer | controller/chatController.js:80-97 | the error handler answers a raised service error with the service's status (500 without one) and sets `Retry-After` only for 429 |
| ChatController.CallWithRetries | controller/chatController.js:61-99 | the loop's run is the retry policy's run |
| ChatController.TextChat | controller/chatController.js:43-107 | the request is refused exactly when the schema fails or the context is too long, always with a validation error; otherwise the assembled messages are sent and the reply is built from the retry run |
| ChatController.TextRefusalsAre400 | controller/chatController.js:52-59 | every refusal is answered 400; a context one character over the limit is refused while one at the limit is sent |
| ChatController.ImageBody | controller/chatController.js:112-114 | an admitted message has 1 to the maximum number of characters |
| ChatController.ImageGate | controller/chatController.js:118-154 | the gate passes exactly when the body, file, type, size, image processing and compressed size checks all pass; a failure is a validation or image-processing error |
| ChatController.ImageGateOrder | controller/chatController.js:118-154 | the first failing check names the error; a 5 MiB upload and a 1 MiB result pass |
| ChatController.ImageChat | controller/chatController.js:109-212 | the request is refused exactly when the gate fails; otherwise the image messages are sent, the reply reports the compressed size, and a failed run passes on the retry loop's own error |
| ChatService.History | src/services/chat.service.js:19-21 | the stored list for a known id, the empty list for an unknown one |
| ChatService.ConversationIdFor | src/services/chat.service.js:8-11 | the given id is kept exactly when it is non-empty and known; otherwise the fresh id is used |
| ChatService.Appended | src/services/chat.service.js:13-17 | the message ends that conversation's list, the id becomes known, and every other conversation is unchanged |
| ChatService.AsMessages | src/services/chat.service.js:23-35 | one message per entry, in order, with its role and content |
| ChatService.Answered | src/services/chat.service.js:23-59 | success exactly when the model answers, recording its text (or `''`) as the assistant's message; an error leaves the store unchanged |
| ChatService.ReuseOnlyKnownIds | src/services/chat.service.js:8-11 | an id is reused exactly when the caller named an existing conversation; a fresh id otherwise starts an empty one |
| ChatService.ProcessTextAppendsTwo | src/services/chat.service.js:23-35 | a successful exchange appends the user's message and then the answer; the model saw the history ending with the user's message; no other conversation changes |
| ChatService.ProcessImageRecords | src/services/chat.service.js:37-59 | the user's text is recorded only when not blank, the answer whenever the model answers, and the model receives the history then the text (or default prompt) with the image |
| ChatService.BlankImageMessage | src/services/chat.service.js:39-45 | a blank message adds only the answer on success and nothing on failure, and an empty one is sent as the default prompt |
| ChatService.ConversationStore.constructor | src/services/chat.service.js:6 | the store starts with no conversation |
| ChatService.ConversationStore.GetOrCreateConversationId | src/services/chat.service.js:8-11 | returns the id the store would use and changes nothing |
| ChatService.ConversationStore.AppendMessage | src/services/chat.service.js:13-17 | the map becomes the one with the message appended |
| ChatService.ConversationStore.GetHistory | src/services/chat.service.js:19-21 | returns the history and changes nothing |
| ChatService.ConversationStore.ProcessText | src/services/chat.service.js:23-35 | the new map and the result are those of the text step |
| ChatService.ConversationStore.ProcessMultimodal | src/services/chat.service.js:37-59 | the new map and the result are those of the image step |
| ChatHandlers.TextSchema | src/controllers/chat.controller.js:4-8 | an admitted body has a non-empty message |
| ChatHandlers.TextSchemaRoundTrip | src/controllers/chat.controller.js:4-8 | every body with a non-empty message passes unchanged, and extra keys are ignored |
| ChatHandlers.TextSchemaRefuses | src/controllers/chat.controller.js:4-15 | a missing or empty message, a non-string id or a non-object body is refused |
| ChatHandlers.NonEmptyField | src/controllers/chat.controller.js:27-29 | a field is kept exactly when present and non-empty |
| ChatHandlers.ImageFields | src/controllers/chat.controller.js:27-29 | an empty or absent id or model becomes absent; an absent message becomes the empty string |
| ChatHandlers.EmptyFieldsAreAbsent | src/controllers/chat.controller.js:27-42 | an empty id and an empty model lead to a fresh conversation and the default model |
| ChatHandlers.HandleText | src/controllers/chat.controller.js:10-23 | a refused body answers 400 and leaves the store unchanged; otherwise the store takes the text step and the answer is its result |
| ChatHandlers.HandleMultimodal | src/controllers/chat.controller.js:25-46 | no file answers 400 and leaves the store unchanged; otherwise the store takes the image step with the coerced fields and the file as uploaded |

## Left out

- JWT cryptography is left out. The signature scheme is the `Signer` parameter, and only `Sound` is assumed of it.
- The `'15m'` expiry string is not parsed. The access lifetime is given in seconds.
- `jsonwebtoken`'s refusal of an empty secret is not modelled.
- bcrypt hashing is left out; it is the `Passwords` parameter.
- `models/User.js` is not part of this model. Its defaults are assumed: role `user`, `isActive` true.
- Joi and zod error wording is left out; refusals carry a placeholder message or the `describe` parameter. zod's `details` are omitted.
- Joi's e-mail format is the `isEmail` parameter.
- String lengths count Dafny characters, not UTF-16 code units.
- `toLowerCase` is modelled for ASCII and the Kelvin sign only.
- `parseFloat` in `parseSize` is exact decimal arithmetic, not IEEE floating point.
- Config: numeric settings (`PORT`, `REFRESH_TOKEN_EXPIRY_DAYS` and the chat limits) are taken as integers where they are used, so a `NaN` numeric setting is not modelled.
- The chat handlers' `Exchange` records only the messages sent to the AI service; the model name, `max_tokens: 1000` and `temperature: 0.7` of each request are constants of the call and are left out.
- The `sharp` resize pipeline and base64 encoding are left out. The compressed result is an input.
- The retry loop records its waits instead of sleeping. The OpenAI client is the `api` parameter.
- MongoDB and the in-memory map are modelled as values. Atomicity and concurrent requests are not modelled.
- The TTL index is only advisory in the database, so expiry is modelled by the `expiresAt` comparison and the explicit sweep.
- The timer-based request timeout middleware is left out because it depends on real time.
- Logging and `updatedAt` timestamps are left out.
- The completion's `usage` report is passed through opaquely.
- Multipart fields are single strings. The parsed Express body is an input.
- Logout bodies whose `refreshToken` is a truthy non-string are not modelled.
