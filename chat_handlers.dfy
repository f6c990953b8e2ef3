/**
  * The request handlers in front of the conversation store: the schema gate of the text
  * handler, the field coercion and file gate of the image handler, and the single call each
  * makes to the store when its gate passes.
  */
module ChatHandlers {
  import opened Common
  import opened Json
  import opened ChatService
  import ErrorHandler

  /** The fields the text handler passes on. */
  datatype TextArgs = TextArgs(conversationId: Option<string>, message: string, model: Option<string>)

  /** An optional string field of the text schema: absent is accepted, any string is
      accepted (the empty one too), anything else refuses the body. */
  function OptionalString(f: map<string, Json>, key: string): (r: Option<Option<string>>)
    ensures key !in f ==> r == Some(None)
    ensures key in f ==> (r.Some? <==> f[key].Str?) && (r.Some? ==> r.value == Some(f[key].s))
  {
    if key !in f then Some(None)
    else if f[key].Str? then Some(Some(f[key].s))
    else None
  }

  /** `textSchema.safeParse(req.body)`: an object with a non-empty string `message` and
      optional string `conversationId` and `model`. Other keys are dropped, not refused. */
  function TextSchema(body: Json): (r: Option<TextArgs>)
    ensures r.Some? ==> r.value.message != ""
  {
    if !body.Obj? then None
    else
      var f := body.fields;
      var id := OptionalString(f, "conversationId");
      var model := OptionalString(f, "model");
      if "message" in f && f["message"].Str? && f["message"].s != "" && id.Some? && model.Some?
      then Some(TextArgs(id.value, f["message"].s, model.value))
      else None
  }

  /** The body a client sends for `args`. */
  function TextArgsJson(args: TextArgs): Json
  {
    var withMessage := map["message" := Str(args.message)];
    var withId := if args.conversationId.Some? then withMessage["conversationId" := Str(args.conversationId.value)] else withMessage;
    Obj(if args.model.Some? then withId["model" := Str(args.model.value)] else withId)
  }

  /** Every body with a non-empty message passes the gate unchanged, and extra keys are
      ignored rather than refused. */
  lemma TextSchemaRoundTrip(args: TextArgs, extra: string, value: Json)
    requires args.message != ""
    requires extra !in {"message", "conversationId", "model"}
    ensures TextSchema(TextArgsJson(args)) == Some(args)
    ensures TextSchema(Obj(TextArgsJson(args).fields[extra := value])) == Some(args)
  {
    var f := TextArgsJson(args).fields;
    var g := f[extra := value];
    assert "message" in g && g["message"] == Str(args.message);
    assert OptionalString(g, "conversationId") == OptionalString(f, "conversationId");
    assert OptionalString(g, "model") == OptionalString(f, "model");
  }

  /** A missing or empty message, or a field of the wrong type, refuses the body. */
  lemma TextSchemaRefuses(f: map<string, Json>)
    ensures "message" !in f ==> TextSchema(Obj(f)).None?
    ensures "message" in f && f["message"] == Str("") ==> TextSchema(Obj(f)).None?
    ensures "conversationId" in f && !f["conversationId"].Str? ==> TextSchema(Obj(f)).None?
    ensures TextSchema(Null).None?
  {
  }

  /** The fields the image handler passes on, after coercion. */
  datatype ImageArgs = ImageArgs(conversationId: Option<string>, message: string, model: Option<string>)

  /** `(x ?? '') || undefined` on a text field of the multipart form. */
  function NonEmptyField(fields: map<string, string>, key: string): (r: Option<string>)
    ensures r.Some? <==> key in fields && fields[key] != ""
    ensures r.Some? ==> r.value == fields[key]
  {
    if key in fields && fields[key] != "" then Some(fields[key]) else None
  }

  /** The coercion of `handleMultimodal`: an absent or empty id or model becomes absent,
      an absent message becomes the empty string. */
  function ImageFields(fields: map<string, string>): (a: ImageArgs)
    ensures a.conversationId == NonEmptyField(fields, "conversationId")
    ensures a.model == NonEmptyField(fields, "model")
    ensures a.message == (if "message" in fields then fields["message"] else "")
  {
    ImageArgs(NonEmptyField(fields, "conversationId"),
              if "message" in fields then fields["message"] else "",
              NonEmptyField(fields, "model"))
  }

  /** An empty id and no id at all lead to the same conversation id, and so do an empty
      model and no model: the service cannot tell them apart. */
  lemma EmptyFieldsAreAbsent(m: Conversations, fields: map<string, string>, freshId: string)
    requires "conversationId" in fields && fields["conversationId"] == ""
    requires "model" in fields && fields["model"] == ""
    ensures var a := ImageFields(fields);
      && a.conversationId == None && a.model == None
      && ConversationIdFor(m, a.conversationId, freshId) == freshId
      && ModelName(a.model) == DefaultModel
  {
  }

  /** The uploaded file as multer describes it. */
  datatype UploadedFile = UploadedFile(buffer: seq<bv8>, mimetype: string)

  /** What a handler answered: 400 with `{error: {message}}`, the store's result as the
      body, or the error passed to the error handler. */
  datatype Answer = BadRequest(message: string) | Replied(body: ServiceReply) | Passed(error: ErrorHandler.ErrorRecord)

  const InvalidBodyMessage := "Invalid body"
  const NoFileMessage := "Image file is required (field name: image)"

  function AnswerOf(r: Result<ServiceReply, ErrorHandler.ErrorRecord>): (a: Answer)
    ensures !a.BadRequest?
    ensures r.Ok? <==> a.Replied?
  {
    match r
    case Ok(reply) => Replied(reply)
    case Err(e) => Passed(e)
  }

  /** `handleText`: a body the schema refuses is answered 400 and the store is not used. */
  method HandleText(store: ConversationStore, body: Json, freshId: string, llm: Llm) returns (a: Answer)
    modifies store
    ensures TextSchema(body).None? ==> a == BadRequest(InvalidBodyMessage) && store.conversations == old(store.conversations)
    ensures TextSchema(body).Some? ==>
      var args := TextSchema(body).value;
      var s := ProcessTextStep(old(store.conversations), args.conversationId, args.message, args.model, freshId, llm);
      store.conversations == s.conversations && a == AnswerOf(s.result)
  {
    var parsed := TextSchema(body);
    if parsed.None? {
      return BadRequest(InvalidBodyMessage);
    }
    var args := parsed.value;
    var result := store.ProcessText(args.conversationId, args.message, args.model, freshId, llm);
    a := AnswerOf(result);
  }

  /** `handleMultimodal`: without a file the answer is 400 and the store is not used;
      otherwise the store receives the coerced fields and the file's bytes and type as they
      came. */
  method HandleMultimodal(store: ConversationStore, fields: map<string, string>, file: Option<UploadedFile>,
                          freshId: string, llm: Llm) returns (a: Answer)
    modifies store
    ensures file.None? ==> a == BadRequest(NoFileMessage) && store.conversations == old(store.conversations)
    ensures file.Some? ==>
      var args := ImageFields(fields);
      var s := ProcessImageStep(old(store.conversations), args.conversationId, args.message, args.model,
                                Image(file.value.buffer, file.value.mimetype), freshId, llm);
      store.conversations == s.conversations && a == AnswerOf(s.result)
  {
    var args := ImageFields(fields);
    if file.None? {
      return BadRequest(NoFileMessage);
    }
    var result := store.ProcessMultimodal(args.conversationId, args.message, args.model,
                                          Image(file.value.buffer, file.value.mimetype), freshId, llm);
    a := AnswerOf(result);
  }
}
