/**
  * The two chat handlers of the API: the schema and length checks on a text request, the
  * context-length check, the messages sent to the AI service, the bounded retry policy
  * around the service call, and the upload checks of the image request. The AI service is
  * a sequence of outcomes, one per call; the image pipeline's result is an input.
  */
module ChatController {
  import opened Common
  import opened JsText
  import opened Json
  import opened Http
  import opened ErrorHandler

  /** The chat settings read from the configuration. `describe` stands for the schema
      library's description of why a body was refused (its wording is not modelled). */
  datatype ChatSettings = ChatSettings(
    maxMessageLength: int,
    maxContextLength: int,
    maxRetries: int,
    describe: Json -> string)

  /** A chat message with text content: a context item, or one of the messages sent. */
  datatype Turn = Turn(role: string, content: string)

  const ContextRoles: set<string> := {"user", "assistant", "system"}
  const MaxContextItems := 50
  const TextSystemPrompt := "You are a helpful AI assistant."
  const ImageSystemPrompt := "You are a helpful AI assistant that can see images."

  predicate ValidTurn(t: Turn)
  {
    t.role in ContextRoles && t.content != ""
  }

  // ---------------------------------------------------------------- the text request

  /** One context item as the schema admits it: an object with exactly `role` (one of the
      three roles) and `content` (a non-empty string). */
  function ContextItem(j: Json): (t: Option<Turn>)
    ensures t.Some? ==> ValidTurn(t.value)
  {
    if j.Obj? && j.fields.Keys <= {"role", "content"}
       && "role" in j.fields && j.fields["role"].Str? && j.fields["role"].s in ContextRoles
       && "content" in j.fields && JoiString(j.fields["content"])
    then Some(Turn(j.fields["role"].s, j.fields["content"].s))
    else None
  }

  /** Every item of the `context` array admitted, in order; refused as soon as one is not. */
  function ContextItems(items: seq<Json>): (r: Option<seq<Turn>>)
    ensures r.Some? <==> forall i :: 0 <= i < |items| ==> ContextItem(items[i]).Some?
    ensures r.Some? ==> |r.value| == |items| && forall i :: 0 <= i < |items| ==> ContextItem(items[i]) == Some(r.value[i])
  {
    if items == [] then Some([])
    else match (ContextItem(items[0]), ContextItems(items[1..]))
      case (Some(t), Some(ts)) => Some([t] + ts)
      case _ => None
  }

  /** A text request the schema admitted; `context` is `[]` when absent. */
  datatype TextRequest = TextRequest(message: string, conversationId: Option<string>, context: seq<Turn>)

  /** `textSchema.validate(req.body)`: only the keys `message`, `conversationId` and
      `context`; a message of 1 to `maxMessageLength` characters; an optional non-empty
      conversation id; an optional array of at most 50 admitted context items. */
  function TextBody(cfg: ChatSettings, body: Json): (r: Option<TextRequest>)
    ensures r.Some? ==> 1 <= |r.value.message| <= cfg.maxMessageLength
    ensures r.Some? ==> |r.value.context| <= MaxContextItems && forall i :: 0 <= i < |r.value.context| ==> ValidTurn(r.value.context[i])
    ensures r.Some? && r.value.conversationId.Some? ==> r.value.conversationId.value != ""
  {
    if !(body.Obj? && body.fields.Keys <= {"message", "conversationId", "context"}) then None
    else
      var f := body.fields;
      if !("message" in f && JoiString(f["message"]) && |f["message"].s| <= cfg.maxMessageLength) then None
      else if "conversationId" in f && !JoiString(f["conversationId"]) then None
      else if "context" in f && !(f["context"].Arr? && |f["context"].items| <= MaxContextItems) then None
      else
        var items := if "context" in f then ContextItems(f["context"].items) else Some([]);
        if items.None? then None
        else Some(TextRequest(f["message"].s, if "conversationId" in f then Some(f["conversationId"].s) else None, items.value))
  }

  /** A text request as a client writes it: the context always present as an array. */
  function TextRequestJson(req: TextRequest): Json
  {
    var base := map["message" := Str(req.message), "context" := Arr(ContextJson(req.context))];
    Obj(if req.conversationId.Some? then base["conversationId" := Str(req.conversationId.value)] else base)
  }

  /** A context item as a client writes it: `{role, content}`. */
  function TurnJson(t: Turn): Json
  {
    Obj(map["role" := Str(t.role), "content" := Str(t.content)])
  }

  function ContextJson(ctx: seq<Turn>): (items: seq<Json>)
    ensures |items| == |ctx|
  {
    if ctx == [] then [] else [TurnJson(ctx[0])] + ContextJson(ctx[1..])
  }

  /** A valid item written out is admitted unchanged. */
  lemma ContextItemOfJson(t: Turn)
    requires ValidTurn(t)
    ensures ContextItem(TurnJson(t)) == Some(t)
  {
    var f := TurnJson(t).fields;
    assert f.Keys == {"role", "content"};
  }

  lemma {:induction false} ContextItemsOfJson(ctx: seq<Turn>)
    requires forall i :: 0 <= i < |ctx| ==> ValidTurn(ctx[i])
    ensures ContextItems(ContextJson(ctx)) == Some(ctx)
  {
    if ctx != [] {
      ContextItemsOfJson(ctx[1..]);
      ContextItemOfJson(ctx[0]);
      var items := ContextJson(ctx);
      assert items[0] == TurnJson(ctx[0]) && items[1..] == ContextJson(ctx[1..]);
      assert [ctx[0]] + ctx[1..] == ctx;
    }
  }

  /** Every request within the limits is admitted as it was written: the schema loses
      nothing of a valid request. */
  lemma TextBodyRoundTrip(cfg: ChatSettings, req: TextRequest)
    requires 1 <= |req.message| <= cfg.maxMessageLength
    requires |req.context| <= MaxContextItems && forall i :: 0 <= i < |req.context| ==> ValidTurn(req.context[i])
    requires req.conversationId.Some? ==> req.conversationId.value != ""
    ensures TextBody(cfg, TextRequestJson(req)) == Some(req)
  {
    ContextItemsOfJson(req.context);
  }

  /** `context.reduce((sum, msg) => sum + msg.content.length, 0)`, folded from the left. */
  function ContextLength(ctx: seq<Turn>): (n: nat)
  {
    if ctx == [] then 0 else ContextLength(ctx[..|ctx| - 1]) + |ctx[|ctx| - 1].content|
  }

  /** The total is additive: the length of a context is the sum of the lengths of its
      parts, whichever way it is cut. */
  lemma {:induction false} ContextLengthConcat(a: seq<Turn>, b: seq<Turn>)
    ensures ContextLength(a + b) == ContextLength(a) + ContextLength(b)
    decreases |b|
  {
    if b != [] {
      assert (a + b)[..|a + b| - 1] == a + b[..|b| - 1];
      ContextLengthConcat(a, b[..|b| - 1]);
    } else {
      assert a + b == a;
    }
  }

  /** The messages of the text request: the fixed system prompt, the context in its order,
      the user's message last. */
  function Assembled(ctx: seq<Turn>, message: string): (sent: seq<Turn>)
    ensures |sent| == |ctx| + 2
    ensures sent[0] == Turn("system", TextSystemPrompt) && sent[|sent| - 1] == Turn("user", message)
    ensures forall i :: 0 <= i < |ctx| ==> sent[i + 1] == ctx[i]
  {
    [Turn("system", TextSystemPrompt)] + ctx + [Turn("user", message)]
  }

  // ---------------------------------------------------------------- the AI service

  /** What a successful call returns: the first choice's content when there is one, and the
      usage report passed through. */
  datatype Completion = Completion(content: Option<string>, usage: Json)

  /** The service's answer to one call: a completion, or a failure with its HTTP status
      (absent for a failure without one), its `retry-after` header and its message. */
  datatype ApiOutcome =
    | Answered(completion: Completion)
    | Failed(status: Option<int>, retryAfterHeader: Option<string>, message: string)

  predicate Unavailable(o: ApiOutcome)
  {
    o.Failed? && o.status == Some(503)
  }

  /** `choices?.[0]?.message?.content ?? ""`. */
  function ReplyText(c: Completion): string
  {
    c.content.GetOr("")
  }

  function Pow2(n: nat): (p: nat)
    ensures p >= 1
  {
    if n == 0 then 1 else 2 * Pow2(n - 1)
  }

  /** The wait before the next call once `retryCount` calls have failed: `2^retryCount` seconds. */
  function BackoffDelay(retryCount: nat): int
  {
    Pow2(retryCount) * 1000
  }

  /** The waits after failed calls `first`, `first + 1`, ... (`count` of them). */
  function Backoffs(first: nat, count: nat): (d: seq<int>)
    ensures |d| == count
    ensures forall i :: 0 <= i < count ==> d[i] == BackoffDelay(first + i)
    decreases count
  {
    if count == 0 then [] else [BackoffDelay(first)] + Backoffs(first + 1, count - 1)
  }

  const RateLimitMessage := "Rate limit exceeded. Please try again later."
  const BadRequestMessage := "Invalid request to AI service. Please check your input."
  const BadKeyMessage := "Authentication failed. Please check API configuration."
  const UnavailableMessage := "AI service temporarily unavailable. Please try again later."

  /** The error raised for a failed call that is not retried. */
  function Raised(f: ApiOutcome): (e: ErrorRecord)
    requires f.Failed?
    ensures e.name == "OpenAIApiError" && e.status.Some?
    ensures e.retryAfter.Some? <==> f.status == Some(429)
  {
    if f.status == Some(429) then
      OpenAIApiError(RateLimitMessage, 429,
                     Some(if f.retryAfterHeader.Some? && f.retryAfterHeader.value != "" then HeaderText(f.retryAfterHeader.value) else Seconds(60)))
    else if f.status == Some(400) then OpenAIApiError(BadRequestMessage, 400, None)
    else if f.status == Some(401) then OpenAIApiError(BadKeyMessage, 401, None)
    else if f.status == Some(503) then OpenAIApiError(UnavailableMessage, 503, None)
    else OpenAIApiError("AI service error: " + f.message, if StatusTruthy(f.status) then f.status.value else 500, None)
  }

  /** With no attempt allowed the loop never calls, `response` stays undefined and reading
      its `choices` throws. */
  function NoResponse(): ErrorRecord
  {
    TypeError("Cannot read properties of undefined (reading 'choices')")
  }

  /** A run of the retry loop: the completion or the error it ends with, how many calls it
      made and the waits it made between them. */
  datatype Run = Run(result: Result<Completion, ErrorRecord>, calls: nat, delays: seq<int>)

  /** The retry loop from the point where `retryCount` calls have failed; call number `k`
      (from 0) is answered by `api(k)`. */
  function RetryFrom(api: nat -> ApiOutcome, maxRetries: int, retryCount: nat): (run: Run)
    ensures retryCount >= maxRetries ==> run == Run(Err(NoResponse()), retryCount, [])
    ensures retryCount < maxRetries ==> retryCount < run.calls <= maxRetries
    ensures retryCount < maxRetries ==> |run.delays| == run.calls - retryCount - 1
    decreases maxRetries - retryCount
  {
    if retryCount >= maxRetries then Run(Err(NoResponse()), retryCount, [])
    else match api(retryCount)
      case Answered(c) => Run(Ok(c), retryCount + 1, [])
      case Failed(_, _, _) =>
        if Unavailable(api(retryCount)) && retryCount + 1 < maxRetries then
          var rest := RetryFrom(api, maxRetries, retryCount + 1);
          Run(rest.result, rest.calls, [BackoffDelay(retryCount + 1)] + rest.delays)
        else Run(Err(Raised(api(retryCount))), retryCount + 1, [])
  }

  function Retry(api: nat -> ApiOutcome, maxRetries: int): Run
  {
    RetryFrom(api, maxRetries, 0)
  }

  /** What a call that is not a 503 decides: its completion, or its error. */
  function Decided(o: ApiOutcome): Result<Completion, ErrorRecord>
    requires !Unavailable(o)
  {
    if o.Answered? then Ok(o.completion) else Err(Raised(o))
  }

  /** The retry policy: calls are made until the first one that is not a 503 (within the
      allowed number); that call decides the outcome, and every 503 before it was followed by
      a wait of `2^n` seconds, `n` counting the failed calls so far. A 429, 400, 401 or any
      other failure therefore ends the loop at once. */
  lemma {:induction false} FirstDecisiveCall(api: nat -> ApiOutcome, maxRetries: int, from: nat, k: nat)
    requires from <= k < maxRetries
    requires forall i :: from <= i < k ==> Unavailable(api(i))
    requires !Unavailable(api(k))
    ensures RetryFrom(api, maxRetries, from) == Run(Decided(api(k)), k + 1, Backoffs(from + 1, k - from))
    decreases k - from
  {
    if from < k {
      FirstDecisiveCall(api, maxRetries, from + 1, k);
      assert Backoffs(from + 1, k - from) == [BackoffDelay(from + 1)] + Backoffs(from + 2, k - from - 1);
    }
  }

  /** When every allowed call answers 503, the loop makes exactly `maxRetries` calls, waits
      after each but the last, and raises the 503 error. */
  lemma {:induction false} AllUnavailable(api: nat -> ApiOutcome, maxRetries: int, from: nat)
    requires from < maxRetries
    requires forall i :: from <= i < maxRetries ==> Unavailable(api(i))
    ensures RetryFrom(api, maxRetries, from)
            == Run(Err(OpenAIApiError(UnavailableMessage, 503, None)), maxRetries, Backoffs(from + 1, maxRetries - 1 - from))
    decreases maxRetries - from
  {
    if from + 1 < maxRetries {
      AllUnavailable(api, maxRetries, from + 1);
      assert Backoffs(from + 1, maxRetries - 1 - from) == [BackoffDelay(from + 1)] + Backoffs(from + 2, maxRetries - 2 - from);
    }
  }

  /** The error handler answers a raised service error with the service's own status (500
      when it had none), and sets `Retry-After` only for a 429: the header's value, or 60. */
  lemma RaisedAnswer(f: ApiOutcome, nodeEnv: Option<string>)
    requires f.Failed?
    ensures var r := Handle(Raised(f), nodeEnv);
      && r.status == (if StatusTruthy(f.status) then f.status.value else 500)
      && (r.retryAfterHeader.Some? <==> f.status == Some(429))
      && (f.status == Some(429) ==>
            r.retryAfterHeader == Some(if f.retryAfterHeader.Some? && f.retryAfterHeader.value != ""
                                       then HeaderText(f.retryAfterHeader.value) else Seconds(60)))
  {
  }

  /** The retry loop of both handlers, step by step as the source runs it. */
  method CallWithRetries(api: nat -> ApiOutcome, maxRetries: int) returns (run: Run)
    ensures run == Retry(api, maxRetries)
  {
    var retryCount: nat := 0;
    var delays: seq<int> := [];
    var response: Option<Completion> := None;
    while retryCount < maxRetries
      invariant retryCount == 0 || retryCount < maxRetries
      invariant RetryFrom(api, maxRetries, retryCount).(delays := delays + RetryFrom(api, maxRetries, retryCount).delays)
                == Retry(api, maxRetries)
      decreases maxRetries - retryCount
    {
      var outcome := api(retryCount);
      if outcome.Answered? {
        response := Some(outcome.completion);
        assert delays + [] == delays;
        break;
      }
      retryCount := retryCount + 1;
      if outcome.status == Some(429) || outcome.status == Some(400) || outcome.status == Some(401) {
        assert delays + [] == delays;
        return Run(Err(Raised(outcome)), retryCount, delays);
      }
      if outcome.status == Some(503) {
        if retryCount < maxRetries {
          assert delays + [BackoffDelay(retryCount)] + RetryFrom(api, maxRetries, retryCount).delays
              == delays + ([BackoffDelay(retryCount)] + RetryFrom(api, maxRetries, retryCount).delays);
          delays := delays + [BackoffDelay(retryCount)];
          continue;
        }
        assert delays + [] == delays;
        return Run(Err(Raised(outcome)), retryCount, delays);
      }
      assert delays + [] == delays;
      return Run(Err(Raised(outcome)), retryCount, delays);
    }
    if response.None? {
      return Run(Err(NoResponse()), retryCount, delays);
    }
    run := Run(Ok(response.value), retryCount + 1, delays);
  }

  // ---------------------------------------------------------------- the text handler

  /** How a chat request ended: refused before any call to the service, or sent (these
      messages, this run of the retry loop) with the answer built from the run. */
  datatype Exchange<M, T> = Rejected(error: ErrorRecord) | Sent(messages: M, run: Run, answer: Result<T, ErrorRecord>)

  /** The JSON answer `{reply, usage, conversationId}`. */
  datatype TextReply = TextReply(reply: string, usage: Json, conversationId: Option<string>)

  function TooLongMessage(cfg: ChatSettings): string
  {
    "Message too long. Maximum " + IntToString(cfg.maxMessageLength) + " characters allowed."
  }

  const ContextTooLongMessage := "Conversation context too long. Please start a new conversation."

  /** `handleTextChat`. */
  function TextChat(cfg: ChatSettings, body: Json, api: nat -> ApiOutcome): (x: Exchange<seq<Turn>, TextReply>)
    ensures x.Rejected? <==> TextBody(cfg, body).None? || ContextLength(TextBody(cfg, body).value.context) > cfg.maxContextLength
    ensures x.Rejected? ==> x.error.name == "ValidationError"
    ensures x.Rejected? && TextBody(cfg, body).Some? ==> x.error.message == ContextTooLongMessage
    ensures x.Sent? ==> var req := TextBody(cfg, body).value;
      && x.messages == Assembled(req.context, req.message)
      && x.run == Retry(api, cfg.maxRetries)
      && (x.answer.Ok? <==> x.run.result.Ok?)
      && (x.answer.Ok? ==> x.answer.value == TextReply(ReplyText(x.run.result.value), x.run.result.value.usage, req.conversationId))
      && (x.answer.Err? ==> x.answer.error == x.run.result.error)
  {
    match TextBody(cfg, body)
    case None => Rejected(ValidationError("Validation failed: " + cfg.describe(body)))
    case Some(req) =>
      if |req.message| > cfg.maxMessageLength then Rejected(ValidationError(TooLongMessage(cfg)))
      else if ContextLength(req.context) > cfg.maxContextLength then Rejected(ValidationError(ContextTooLongMessage))
      else
        var run := Retry(api, cfg.maxRetries);
        Sent(Assembled(req.context, req.message), run,
             match run.result
             case Ok(c) => Ok(TextReply(ReplyText(c), c.usage, req.conversationId))
             case Err(e) => Err(e))
  }

  /** Every refusal of a text request is answered 400, and a valid request whose context is
      one character over the limit is refused while one at the limit is sent. */
  lemma TextRefusalsAre400(cfg: ChatSettings, req: TextRequest, api: nat -> ApiOutcome, nodeEnv: Option<string>)
    requires 1 <= |req.message| <= cfg.maxMessageLength
    requires |req.context| <= MaxContextItems && forall i :: 0 <= i < |req.context| ==> ValidTurn(req.context[i])
    requires req.conversationId.Some? ==> req.conversationId.value != ""
    ensures var x := TextChat(cfg, TextRequestJson(req), api);
      && (x.Rejected? ==> Handle(x.error, nodeEnv).status == 400 && ContextLength(req.context) > cfg.maxContextLength)
      && (ContextLength(req.context) <= cfg.maxContextLength ==> x.Sent? && x.messages == Assembled(req.context, req.message))
  {
    TextBodyRoundTrip(cfg, req);
  }

  // ---------------------------------------------------------------- the image handler

  /** The uploaded file as multer describes it. */
  datatype Upload = Upload(mimetype: string, size: int)

  /** The resized JPEG the image pipeline produced: its length in bytes and its base64 text. */
  datatype Compressed = Compressed(length: int, base64: string)

  const AllowedTypes: seq<string> := ["image/jpeg", "image/jpg", "image/png", "image/webp"]
  const MaxUploadBytes := 5 * 1024 * 1024
  const MaxCompressedBytes := 1024 * 1024

  /** `multimodalSchema`: exactly one key, `message`, of 1 to `maxMessageLength` characters. */
  function ImageBody(cfg: ChatSettings, body: Json): (m: Option<string>)
    ensures m.Some? ==> 1 <= |m.value| <= cfg.maxMessageLength
  {
    if body.Obj? && body.fields.Keys <= {"message"} && "message" in body.fields
       && JoiString(body.fields["message"]) && |body.fields["message"].s| <= cfg.maxMessageLength
    then Some(body.fields["message"].s)
    else None
  }

  const FileRequiredMessage := "Image file is required (field name: 'image')"
  const FileTypeMessage := "Only JPEG, PNG, and WebP images are supported"
  const FileSizeMessage := "Image file too large. Maximum 5MB allowed."
  const CompressedSizeMessage := "Image too large even after compression. Please use a smaller image."

  /** The checks of `handleMultimodalChat` before the service is called, in the source's
      order; `compress` is what the image pipeline makes of the upload. On success: the
      message and the compressed image. */
  function ImageGate(cfg: ChatSettings, body: Json, file: Option<Upload>, compress: Result<Compressed, string>)
    : (g: Result<(string, Compressed), ErrorRecord>)
    ensures g.Ok? <==> ImageBody(cfg, body).Some? && file.Some? && file.value.mimetype in AllowedTypes
                       && file.value.size <= MaxUploadBytes && compress.Ok? && compress.value.length <= MaxCompressedBytes
    ensures g.Ok? ==> g.value == (ImageBody(cfg, body).value, compress.value)
    ensures g.Err? ==> g.error.name in {"ValidationError", "ImageProcessingError"}
  {
    match ImageBody(cfg, body)
    case None => Err(ValidationError("Validation failed: " + cfg.describe(body)))
    case Some(message) =>
      if file.None? then Err(ValidationError(FileRequiredMessage))
      else if file.value.mimetype !in AllowedTypes then Err(ValidationError(FileTypeMessage))
      else if file.value.size > MaxUploadBytes then Err(ValidationError(FileSizeMessage))
      else if |message| > cfg.maxMessageLength then Err(ValidationError(TooLongMessage(cfg)))
      else match compress
        case Err(why) => Err(ImageProcessingError("Failed to process image: " + why))
        case Ok(c) =>
          if c.length > MaxCompressedBytes then Err(ImageProcessingError(CompressedSizeMessage))
          else Ok((message, c))
  }

  /** The checks fail in order: the first one that fails names the error, whatever the later
      ones would say. Limits are inclusive: a 5 MiB upload and a 1 MiB result pass. */
  lemma ImageGateOrder(cfg: ChatSettings, body: Json, file: Option<Upload>, compress: Result<Compressed, string>, nodeEnv: Option<string>)
    ensures var g := ImageGate(cfg, body, file, compress);
      && (g.Err? ==> Handle(g.error, nodeEnv).status == 400)
      && (ImageBody(cfg, body).Some? && file.None? ==> g == Err(ValidationError(FileRequiredMessage)))
      && (ImageBody(cfg, body).Some? && file.Some? && file.value.mimetype !in AllowedTypes ==>
            g == Err(ValidationError(FileTypeMessage)))
      && (ImageBody(cfg, body).Some? && file.Some? && file.value.mimetype in AllowedTypes && file.value.size > MaxUploadBytes ==>
            g == Err(ValidationError(FileSizeMessage)))
      && (ImageBody(cfg, body).Some? && file.Some? && file.value.mimetype in AllowedTypes && file.value.size <= MaxUploadBytes
          && compress.Ok? && compress.value.length > MaxCompressedBytes ==>
            g == Err(ImageProcessingError(CompressedSizeMessage)))
  {
  }

  /** The two messages of the image request: the image system prompt, then the user's text
      together with the image as a `data:` URL. */
  datatype ImageMessages = ImageMessages(system: Turn, text: string, imageUrl: string)

  /** The JSON answer `{reply, imageProcessed, compressedSize}`. */
  datatype ImageReply = ImageReply(reply: string, imageProcessed: bool, compressedSize: int)

  /** `handleMultimodalChat`. */
  function ImageChat(cfg: ChatSettings, body: Json, file: Option<Upload>, compress: Result<Compressed, string>, api: nat -> ApiOutcome)
    : (x: Exchange<ImageMessages, ImageReply>)
    ensures x.Rejected? <==> ImageGate(cfg, body, file, compress).Err?
    ensures x.Sent? ==> var (message, c) := ImageGate(cfg, body, file, compress).value;
      && x.messages == ImageMessages(Turn("system", ImageSystemPrompt), message, "data:image/jpeg;base64," + c.base64)
      && x.run == Retry(api, cfg.maxRetries)
      && (x.answer.Ok? <==> x.run.result.Ok?)
      && (x.answer.Ok? ==> x.answer.value == ImageReply(ReplyText(x.run.result.value), true, c.length))
      && (x.answer.Err? ==> x.answer.error == x.run.result.error)
  {
    match ImageGate(cfg, body, file, compress)
    case Err(e) => Rejected(e)
    case Ok((message, c)) =>
      var run := Retry(api, cfg.maxRetries);
      Sent(ImageMessages(Turn("system", ImageSystemPrompt), message, "data:image/jpeg;base64," + c.base64), run,
           match run.result
           case Ok(done) => Ok(ImageReply(ReplyText(done), true, c.length))
           case Err(e) => Err(e))
  }
}
