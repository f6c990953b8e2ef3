/**
  * The in-memory conversation store of the second chat service: a map from conversation id
  * to the list of messages exchanged so far, the id chosen for a request, and the two
  * operations that extend a conversation around one call to the language model. The model
  * is a function from the request it receives to its answer (or the error it throws); the
  * identifier generator is the `freshId` each operation is handed.
  */
module ChatService {
  import opened Common
  import opened JsText
  import ErrorHandler

  /** One stored message `{role, content}`. */
  datatype Entry = Entry(role: string, content: string)

  type Conversations = map<string, seq<Entry>>

  /** The image the caller uploaded: its bytes and its MIME type. */
  datatype Image = Image(data: seq<bv8>, mime: string)

  /** The content of a message sent to the model: text, or text together with an image. */
  datatype Content = Text(text: string) | TextWithImage(text: string, image: Image)

  datatype Message = Message(role: string, content: Content)

  /** What is sent to the model: the model name and the messages. */
  datatype LlmRequest = LlmRequest(model: string, messages: seq<Message>)

  /** The language model: the first choice's content (absent when there is none), or the
      error the client throws. */
  type Llm = LlmRequest -> Result<Option<string>, ErrorHandler.ErrorRecord>

  /** What both operations return: the conversation id used and the answer. */
  datatype ServiceReply = ServiceReply(conversationId: string, message: string)

  const DefaultModel := "gpt-4o-mini"
  const DefaultImagePrompt := "Analyze this image"

  /** `getHistory(id)`: the stored list, or the empty list for an unknown id. */
  function History(m: Conversations, id: string): (h: seq<Entry>)
    ensures id !in m ==> h == []
    ensures id in m ==> h == m[id]
  {
    if id in m then m[id] else []
  }

  /** `getOrCreateConversationId(conversationId)`: the given id when it is truthy and
      already known, otherwise the id just generated. */
  function ConversationIdFor(m: Conversations, conversationId: Option<string>, freshId: string): (id: string)
    ensures conversationId.Some? && conversationId.value != "" && conversationId.value in m ==> id == conversationId.value
    ensures !(conversationId.Some? && conversationId.value != "" && conversationId.value in m) ==> id == freshId
  {
    if conversationId.Some? && conversationId.value != "" && conversationId.value in m then conversationId.value
    else freshId
  }

  /** `appendMessage(id, message)`: the message at the end of that list (a new list when
      there was none); every other conversation as it was. */
  function Appended(m: Conversations, id: string, e: Entry): (m': Conversations)
    ensures m'.Keys == m.Keys + {id}
    ensures History(m', id) == History(m, id) + [e]
    ensures forall k :: k != id ==> History(m', k) == History(m, k)
  {
    m[id := History(m, id) + [e]]
  }

  /** `history.map(m => ({role, content}))`. */
  function AsMessages(h: seq<Entry>): (ms: seq<Message>)
    ensures |ms| == |h|
    ensures forall i :: 0 <= i < |h| ==> ms[i] == Message(h[i].role, Text(h[i].content))
  {
    seq(|h|, i requires 0 <= i < |h| => Message(h[i].role, Text(h[i].content)))
  }

  /** `model || 'gpt-4o-mini'`. */
  function ModelName(model: Option<string>): string
  {
    if model.Some? && model.value != "" then model.value else DefaultModel
  }

  /** The store after an operation, and what it returned or threw. */
  datatype Step = Step(conversations: Conversations, result: Result<ServiceReply, ErrorHandler.ErrorRecord>)

  /** The tail both operations share: send `request`, then record the answer (`''` when the
      model gave none) as the assistant's message. A thrown error leaves the store as it is. */
  function Answered(m: Conversations, id: string, request: LlmRequest, llm: Llm): (s: Step)
    ensures s.result.Ok? <==> llm(request).Ok?
    ensures s.result.Ok? ==> s.result.value == ServiceReply(id, llm(request).value.GetOr(""))
                             && s.conversations == Appended(m, id, Entry("assistant", s.result.value.message))
    ensures s.result.Err? ==> s.result.error == llm(request).error && s.conversations == m
  {
    match llm(request)
    case Err(e) => Step(m, Err(e))
    case Ok(content) =>
      var answer := content.GetOr("");
      Step(Appended(m, id, Entry("assistant", answer)), Ok(ServiceReply(id, answer)))
  }

  /** `processText({conversationId, message, model})`. */
  function ProcessTextStep(m: Conversations, conversationId: Option<string>, message: string, model: Option<string>,
                           freshId: string, llm: Llm): Step
  {
    var id := ConversationIdFor(m, conversationId, freshId);
    var withUser := Appended(m, id, Entry("user", message));
    Answered(withUser, id, LlmRequest(ModelName(model), AsMessages(History(withUser, id))), llm)
  }

  /** Whether the image operation records the user's text: `message && message.trim().length > 0`. */
  predicate RecordsText(message: string)
  {
    Trim(message) != ""
  }

  /** The user's entry the image operation records: none for a blank message. */
  function Recorded(message: string): seq<Entry>
  {
    if RecordsText(message) then [Entry("user", message)] else []
  }

  /** The store once the image operation has recorded the user's text, if it does. */
  function WithText(m: Conversations, id: string, message: string): (m': Conversations)
    ensures History(m', id) == History(m, id) + Recorded(message)
    ensures forall k :: k != id ==> History(m', k) == History(m, k)
  {
    if RecordsText(message) then Appended(m, id, Entry("user", message)) else m
  }

  /** The last message sent with an image: the text, or the default prompt when it is empty. */
  function ImagePrompt(message: string, image: Image): Message
  {
    Message("user", TextWithImage(if message != "" then message else DefaultImagePrompt, image))
  }

  /** `processMultimodal({conversationId, message, model, image})`. */
  function ProcessImageStep(m: Conversations, conversationId: Option<string>, message: string, model: Option<string>,
                            image: Image, freshId: string, llm: Llm): Step
  {
    var id := ConversationIdFor(m, conversationId, freshId);
    var before := WithText(m, id, message);
    Answered(before, id, LlmRequest(ModelName(model), AsMessages(History(before, id)) + [ImagePrompt(message, image)]), llm)
  }

  /** An id is reused exactly when the caller named a conversation that exists; a fresh id
      (one the store does not hold) otherwise starts a new conversation. */
  lemma ReuseOnlyKnownIds(m: Conversations, conversationId: Option<string>, freshId: string)
    requires freshId !in m
    ensures var id := ConversationIdFor(m, conversationId, freshId);
      && (id in m <==> conversationId.Some? && conversationId.value != "" && conversationId.value in m)
      && (id !in m ==> History(m, id) == [])
  {
  }

  /** A text exchange that succeeds adds exactly two messages to the conversation it
      returns, the user's and then the answer; the model saw the earlier history with the
      user's message at the end; no other conversation changes. */
  lemma ProcessTextAppendsTwo(m: Conversations, conversationId: Option<string>, message: string, model: Option<string>,
                              freshId: string, llm: Llm)
    ensures var s := ProcessTextStep(m, conversationId, message, model, freshId, llm);
      var id := ConversationIdFor(m, conversationId, freshId);
      var sent := LlmRequest(ModelName(model), AsMessages(History(m, id) + [Entry("user", message)]));
      && (s.result.Ok? ==>
            && s.result.value.conversationId == id
            && s.result.value.message == llm(sent).value.GetOr("")
            && History(s.conversations, id) == History(m, id) + [Entry("user", message), Entry("assistant", s.result.value.message)])
      && (s.result.Err? ==> s.conversations == Appended(m, id, Entry("user", message)) && s.result.error == llm(sent).error)
      && (forall k :: k != id ==> History(s.conversations, k) == History(m, k))
  {
    var id := ConversationIdFor(m, conversationId, freshId);
    var withUser := Appended(m, id, Entry("user", message));
    assert History(withUser, id) == History(m, id) + [Entry("user", message)];
    var s := ProcessTextStep(m, conversationId, message, model, freshId, llm);
    if s.result.Ok? {
      assert History(s.conversations, id) == History(withUser, id) + [Entry("assistant", s.result.value.message)];
      assert History(m, id) + [Entry("user", message)] + [Entry("assistant", s.result.value.message)]
          == History(m, id) + [Entry("user", message), Entry("assistant", s.result.value.message)];
    }
  }

  /** An image exchange records the user's text only when it is not blank, and records the
      answer whenever the model answers; the model receives the history followed by the
      text (or the default prompt) with the image. */
  lemma ProcessImageRecords(m: Conversations, conversationId: Option<string>, message: string, model: Option<string>,
                            image: Image, freshId: string, llm: Llm)
    ensures var s := ProcessImageStep(m, conversationId, message, model, image, freshId, llm);
      var id := ConversationIdFor(m, conversationId, freshId);
      var sent := LlmRequest(ModelName(model), AsMessages(History(m, id) + Recorded(message)) + [ImagePrompt(message, image)]);
      && (RecordsText(message) <==> Recorded(message) == [Entry("user", message)])
      && (!RecordsText(message) <==> Recorded(message) == [])
      && (s.result.Ok? ==>
            && llm(sent).Ok?
            && s.result.value == ServiceReply(id, llm(sent).value.GetOr(""))
            && History(s.conversations, id) == History(m, id) + Recorded(message) + [Entry("assistant", s.result.value.message)])
      && (s.result.Err? ==> llm(sent).Err? && s.result.error == llm(sent).error && History(s.conversations, id) == History(m, id) + Recorded(message))
      && (forall k :: k != id ==> History(s.conversations, k) == History(m, k))
  {
    var id := ConversationIdFor(m, conversationId, freshId);
    var before := WithText(m, id, message);
    var sent := LlmRequest(ModelName(model), AsMessages(History(m, id) + Recorded(message)) + [ImagePrompt(message, image)]);
    assert ProcessImageStep(m, conversationId, message, model, image, freshId, llm) == Answered(before, id, sent, llm);
  }

  /** A blank message (empty or white space only) adds nothing but the answer, and nothing at
      all when the model fails; an empty one is sent to the model as the default prompt. */
  lemma BlankImageMessage(m: Conversations, conversationId: Option<string>, blank: string, model: Option<string>,
                          image: Image, freshId: string, llm: Llm)
    requires AllSpaces(blank)
    ensures var s := ProcessImageStep(m, conversationId, blank, model, image, freshId, llm);
      var id := ConversationIdFor(m, conversationId, freshId);
      && (blank == "" ==> ImagePrompt(blank, image) == Message("user", TextWithImage(DefaultImagePrompt, image)))
      && (s.result.Ok? ==> History(s.conversations, id) == History(m, id) + [Entry("assistant", s.result.value.message)])
      && (s.result.Err? ==> History(s.conversations, id) == History(m, id))
  {
    TrimEmptyIffAllSpaces(blank);
  }

  /** The conversation store: `conversations` is the module-level map. */
  class ConversationStore {
    var conversations: Conversations

    constructor ()
      ensures conversations == map[]
    {
      conversations := map[];
    }

    method GetOrCreateConversationId(conversationId: Option<string>, freshId: string) returns (id: string)
      ensures id == ConversationIdFor(conversations, conversationId, freshId)
    {
      if conversationId.Some? && conversationId.value != "" && conversationId.value in conversations {
        return conversationId.value;
      }
      return freshId;
    }

    method AppendMessage(id: string, e: Entry)
      modifies this
      ensures conversations == Appended(old(conversations), id, e)
    {
      var list := if id in conversations then conversations[id] else [];
      list := list + [e];
      conversations := conversations[id := list];
    }

    method GetHistory(id: string) returns (h: seq<Entry>)
      ensures h == History(conversations, id)
    {
      h := if id in conversations then conversations[id] else [];
    }

    method ProcessText(conversationId: Option<string>, message: string, model: Option<string>, freshId: string, llm: Llm)
      returns (r: Result<ServiceReply, ErrorHandler.ErrorRecord>)
      modifies this
      ensures Step(conversations, r) == ProcessTextStep(old(conversations), conversationId, message, model, freshId, llm)
    {
      var id := GetOrCreateConversationId(conversationId, freshId);
      AppendMessage(id, Entry("user", message));
      var history := GetHistory(id);
      var response := llm(LlmRequest(ModelName(model), AsMessages(history)));
      if response.Err? {
        return Err(response.error);
      }
      var answer := response.value.GetOr("");
      AppendMessage(id, Entry("assistant", answer));
      r := Ok(ServiceReply(id, answer));
    }

    method ProcessMultimodal(conversationId: Option<string>, message: string, model: Option<string>, image: Image,
                             freshId: string, llm: Llm)
      returns (r: Result<ServiceReply, ErrorHandler.ErrorRecord>)
      modifies this
      ensures Step(conversations, r) == ProcessImageStep(old(conversations), conversationId, message, model, image, freshId, llm)
    {
      var id := GetOrCreateConversationId(conversationId, freshId);
      if message != "" && Trim(message) != "" {
        AppendMessage(id, Entry("user", message));
      }
      ghost var before := conversations;
      assert before == WithText(old(conversations), id, message);
      var history := GetHistory(id);
      var userParts := TextWithImage(if message != "" then message else DefaultImagePrompt, image);
      var request := LlmRequest(ModelName(model), AsMessages(history) + [Message("user", userParts)]);
      assert ProcessImageStep(old(conversations), conversationId, message, model, image, freshId, llm)
          == Answered(before, id, request, llm);
      var response := llm(request);
      if response.Err? {
        return Err(response.error);
      }
      var answer := response.value.GetOr("");
      AppendMessage(id, Entry("assistant", answer));
      r := Ok(ServiceReply(id, answer));
    }
  }
}
