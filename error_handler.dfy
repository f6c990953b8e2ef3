/**
  * The global error handler: an ordered chain of tests on an error's name, flags, code and
  * status that picks the HTTP status and the `{error, message, status}` envelope.
  */
module ErrorHandler {
  import opened Common
  import opened Http

  /** `err.code`: absent, numeric (MongoDB) or textual (Node.js system errors, multer). */
  datatype ErrorCode = NoCode | NumCode(n: int) | TextCode(text: string)

  /** The fields of a thrown error that the handler reads. `retryAfter` is the property set by
      the AI-service error class, `headerRetryAfter` is `err.headers['retry-after']`. */
  datatype ErrorRecord = ErrorRecord(
    name: string,
    message: string,
    status: Option<int>,
    code: ErrorCode,
    isJoi: bool,
    retryAfter: Option<RetryAfter>,
    headerRetryAfter: Option<string>,
    stack: string)

  /** The errors the code base throws, with the fields their classes set. */
  function Thrown(name: string, message: string, status: Option<int>): ErrorRecord
  {
    ErrorRecord(name, message, status, NoCode, false, None, None, name + ": " + message)
  }

  /** `new Error(message)`: no status, so the handler's default branch answers 500. */
  function PlainError(message: string): ErrorRecord
  {
    Thrown("Error", message, None)
  }

  function TypeError(message: string): ErrorRecord
  {
    Thrown("TypeError", message, None)
  }

  function AuthError(message: string, status: int): ErrorRecord
  {
    Thrown("AuthError", message, Some(status))
  }

  function ValidationError(message: string): ErrorRecord
  {
    Thrown("ValidationError", message, Some(400))
  }

  function ImageProcessingError(message: string): ErrorRecord
  {
    Thrown("ImageProcessingError", message, Some(400))
  }

  function OpenAIApiError(message: string, status: int, retryAfter: Option<RetryAfter>): ErrorRecord
  {
    Thrown("OpenAIApiError", message, Some(status)).(retryAfter := retryAfter)
  }

  /** The driver's error for an insert that violates a unique index. */
  function DuplicateKeyError(): ErrorRecord
  {
    Thrown("MongoServerError", "E11000 duplicate key error", None).(code := NumCode(11000))
  }

  /** The two error classes whose status the handler sends as it is always carry one. */
  predicate WellFormed(e: ErrorRecord)
  {
    (e.name == "OpenAIApiError" || e.name == "AuthError") ==> e.status.Some?
  }

  predicate StatusTruthy(s: Option<int>)
  {
    s.Some? && s.value != 0
  }

  function MulterMessage(code: ErrorCode): string
  {
    if code == TextCode("LIMIT_FILE_SIZE") then "File too large. Maximum 5MB allowed."
    else if code == TextCode("LIMIT_UNEXPECTED_FILE") then "Unexpected file field."
    else "File upload error"
  }

  // The titles and messages of the handler's answers.
  const ValidationTitle := "Validation Error"
  const ImageTitle := "Image Processing Error"
  const ApiTitle := "AI Service Error"
  const AuthTitle := "Authentication Error"
  const UploadTitle := "File Upload Error"
  const DuplicateTitle := "Duplicate Error"
  const DuplicateText := "Resource already exists"
  const DatabaseTitle := "Database Error"
  const DatabaseText := "Database operation failed"
  const NetworkTitle := "Service Unavailable"
  const NetworkText := "Network error. Please try again later."
  const RateLimitTitle := "Rate Limit Exceeded"
  const RateLimitText := "Too many requests. Please try again later."
  const UnauthorizedTitle := "Authentication Failed"
  const UnauthorizedText := "Invalid API key or authentication."
  const ForbiddenTitle := "Access Denied"
  const ForbiddenText := "Insufficient permissions or quota exceeded."
  const HiddenText := "Internal Server Error"
  const DefaultText := "Something went wrong"
  const ServerTitle := "Server Error"

  /** `errorHandler(err, req, res, next)`; `nodeEnv` is `process.env.NODE_ENV`. */
  function Handle(e: ErrorRecord, nodeEnv: Option<string>): (r: Response)
    requires WellFormed(e)
    ensures r.status == r.body.status
  {
    if e.name == "ValidationError" then Plain(400, ValidationTitle, e.message)
    else if e.name == "ImageProcessingError" then Plain(400, ImageTitle, e.message)
    else if e.name == "OpenAIApiError" then
      Response(e.status.value, if RetryAfterTruthy(e.retryAfter) then e.retryAfter else None,
               Envelope(ApiTitle, e.message, e.status.value, None, None))
    else if e.name == "AuthError" then Plain(e.status.value, AuthTitle, e.message)
    else if e.name == "MulterError" then Plain(400, UploadTitle, MulterMessage(e.code))
    else if e.isJoi then Plain(400, ValidationTitle, e.message)
    else if e.name == "MongoError" || e.name == "MongoServerError" then
      if e.code == NumCode(11000) then Plain(409, DuplicateTitle, DuplicateText)
      else Plain(500, DatabaseTitle, DatabaseText)
    else if e.code == TextCode("ECONNRESET") || e.code == TextCode("ENOTFOUND") then
      Plain(503, NetworkTitle, NetworkText)
    else if e.status == Some(429) then
      var retry := if e.headerRetryAfter.Some? && e.headerRetryAfter.value != ""
                   then HeaderText(e.headerRetryAfter.value) else Seconds(60);
      Response(429, Some(retry),
               Envelope(RateLimitTitle, RateLimitText, 429, Some(retry), None))
    else if e.status == Some(401) then Plain(401, UnauthorizedTitle, UnauthorizedText)
    else if e.status == Some(403) then Plain(403, ForbiddenTitle, ForbiddenText)
    else
      var status := if StatusTruthy(e.status) then e.status.value else 500;
      var message := if nodeEnv == Some("production") then HiddenText
                     else if e.message != "" then e.message else DefaultText;
      Response(status, None,
               Envelope(ServerTitle, message, status, None,
                        if nodeEnv == Some("development") then Some(e.stack) else None))
  }

  // The handler's branches, in the order the source tests them, as an independent table.

  datatype Branch =
    | ValidationName | ImageName | ApiName | AuthName | MulterName | Joi
    | Mongo | Network | RateLimited | Unauthorized | Forbidden | Fallback

  const Order: seq<Branch> :=
    [ValidationName, ImageName, ApiName, AuthName, MulterName, Joi,
     Mongo, Network, RateLimited, Unauthorized, Forbidden]

  /** The test that admits an error to a branch. */
  predicate Guard(b: Branch, e: ErrorRecord)
  {
    match b
    case ValidationName => e.name == "ValidationError"
    case ImageName => e.name == "ImageProcessingError"
    case ApiName => e.name == "OpenAIApiError"
    case AuthName => e.name == "AuthError"
    case MulterName => e.name == "MulterError"
    case Joi => e.isJoi
    case Mongo => e.name == "MongoError" || e.name == "MongoServerError"
    case Network => e.code == TextCode("ECONNRESET") || e.code == TextCode("ENOTFOUND")
    case RateLimited => e.status == Some(429)
    case Unauthorized => e.status == Some(401)
    case Forbidden => e.status == Some(403)
    case Fallback => true
  }

  /** Where each branch stands in the source's order (the default comes last). */
  function Rank(b: Branch): (k: nat)
    ensures k <= |Order| && (k < |Order| ==> Order[k] == b)
  {
    match b
    case ValidationName => 0
    case ImageName => 1
    case ApiName => 2
    case AuthName => 3
    case MulterName => 4
    case Joi => 5
    case Mongo => 6
    case Network => 7
    case RateLimited => 8
    case Unauthorized => 9
    case Forbidden => 10
    case Fallback => 11
  }

  /** The branch that handles `e`: the first in source order whose test admits it, the
      default when none does. */
  function Classify(e: ErrorRecord): (b: Branch)
    ensures Guard(b, e)
    ensures forall i :: 0 <= i < Rank(b) ==> !Guard(Order[i], e)
  {
    if Guard(ValidationName, e) then ValidationName
    else if Guard(ImageName, e) then ImageName
    else if Guard(ApiName, e) then ApiName
    else if Guard(AuthName, e) then AuthName
    else if Guard(MulterName, e) then MulterName
    else if Guard(Joi, e) then Joi
    else if Guard(Mongo, e) then Mongo
    else if Guard(Network, e) then Network
    else if Guard(RateLimited, e) then RateLimited
    else if Guard(Unauthorized, e) then Unauthorized
    else if Guard(Forbidden, e) then Forbidden
    else Fallback
  }

  /** The status each branch answers with. */
  function BranchStatus(b: Branch, e: ErrorRecord): int
    requires WellFormed(e) && Guard(b, e)
  {
    match b
    case ValidationName => 400
    case ImageName => 400
    case ApiName => e.status.value
    case AuthName => e.status.value
    case MulterName => 400
    case Joi => 400
    case Mongo => if e.code == NumCode(11000) then 409 else 500
    case Network => 503
    case RateLimited => 429
    case Unauthorized => 401
    case Forbidden => 403
    case Fallback => if StatusTruthy(e.status) then e.status.value else 500
  }

  /** The handler answers with the status of the first branch, in source order, whose test
      admits the error: earlier tests win over later ones. */
  lemma HandleTakesFirstBranch(e: ErrorRecord, nodeEnv: Option<string>)
    requires WellFormed(e)
    ensures Handle(e, nodeEnv).status == BranchStatus(Classify(e), e)
  {
  }

  /** Validation-type failures all answer 400, whatever status or code they carry. */
  lemma ValidationFamilyIs400(e: ErrorRecord, nodeEnv: Option<string>)
    requires WellFormed(e)
    requires e.name in {"ValidationError", "ImageProcessingError", "MulterError"} || e.isJoi
    requires e.name != "OpenAIApiError" && e.name != "AuthError"
    ensures Handle(e, nodeEnv).status == 400
  {
  }

  /** A duplicate-key error from MongoDB, under either error name, answers 409; other
      MongoDB errors answer 500 as a database error. */
  lemma MongoErrors(e: ErrorRecord, nodeEnv: Option<string>)
    requires (e.name == "MongoError" || e.name == "MongoServerError") && !e.isJoi
    ensures Handle(e, nodeEnv).status == (if e.code == NumCode(11000) then 409 else 500)
    ensures Handle(e, nodeEnv).body.error == (if e.code == NumCode(11000) then DuplicateTitle else DatabaseTitle)
  {
  }

  /** A plain `Error` (no status, no code) answers 500, and in production it says only
      "Internal Server Error"; outside development no stack is exposed. */
  lemma PlainErrorIs500(message: string, nodeEnv: Option<string>)
    ensures var r := Handle(PlainError(message), nodeEnv);
      && r.status == 500 && r.body.error == "Server Error"
      && (nodeEnv == Some("production") ==> r.body.message == "Internal Server Error")
      && (nodeEnv != Some("development") ==> r.body.stack == None)
  {
  }

  /** The `Retry-After` header is set only when the error asks for it: by a truthy
      `retryAfter` on an AI-service error, or always (defaulting to 60 seconds) on a 429. */
  lemma RetryAfterHeader(e: ErrorRecord, nodeEnv: Option<string>)
    requires WellFormed(e)
    ensures var r := Handle(e, nodeEnv);
      && (r.retryAfterHeader.Some? ==> Classify(e) in {ApiName, RateLimited})
      && (Classify(e) == ApiName ==> (r.retryAfterHeader.Some? <==> RetryAfterTruthy(e.retryAfter)))
      && (Classify(e) == RateLimited ==> r.retryAfterHeader.Some? && r.status == 429)
  {
  }
}
