/**
 * The chat server's conversation store (`ChatManager`) and the POST route
 * guards in front of it. Histories are kept per conversation id; a chat
 * request builds a prompt from the system message, the stored history and
 * the new user message, and the history is extended only when the
 * completion succeeds. The completion service is replaced by the outcome
 * of its call, given as a parameter.
 */
module ChatServer {
  import opened Wrappers

  datatype Role = System | User | Assistant

  /** One entry of a prompt or of a stored history, `{"role": ..., "content": ...}`. */
  datatype Msg = Msg(role: Role, content: string)

  /** An entry of the model table: its key, display name and token cap. */
  datatype ModelSpec = ModelSpec(key: string, name: string, maxTokens: nat)

  /** The model table, in the order its keys were inserted. */
  const ModelTable: seq<ModelSpec> := [
    ModelSpec("gpt-4-0", "GPT-4-0", 4096),
    ModelSpec("gpt-4", "GPT-4", 8192),
    ModelSpec("gpt-3.5-turbo", "GPT-3.5 Turbo", 4096)
  ]

  const DefaultModel: string := "gpt-3.5-turbo"

  const SystemPrompt: string :=
    "You are Tyo Technologies' advanced AI assistant. You are helpful, knowledgeable, and professional."

  datatype Status = Success | Error

  /** A JSON reply body: `status`, `message`, and `conversation_id` on a successful chat. */
  datatype Reply = Reply(status: Status, message: string, conversationId: Option<string>)

  /** A route's answer: the HTTP status code and the JSON body. */
  datatype HttpResponse = HttpResponse(code: nat, body: Reply)

  /** What the completion client is asked for: the model, the prompt and the token cap. */
  datatype CompletionCall = CompletionCall(model: string, prompt: seq<Msg>, maxTokens: nat)

  /**
   * How the completion call ended: the first choice's text; the `str()` of
   * the exception the call raised; or the call returned but reading
   * `response.choices[0].message.content` raised (no choices), which happens
   * after the user message has already been stored.
   */
  datatype Completion = Completed(text: string) | Raised(error: string) | Unreadable(error: string)

  /** The body of POST /api/chat; `None` is a missing field. */
  datatype ChatBody = ChatBody(message: Option<string>, conversationId: Option<string>, model: Option<string>)

  /** The body of POST /api/clear; `None` is a missing field. */
  datatype ClearBody = ClearBody(conversationId: Option<string>)

  /** `str()` of the `KeyError` raised by `self.models[model]` for an unknown key. */
  function KeyErrorText(key: string): (r: string)
    ensures |r| == |key| + 2 && r[0] == '\'' && r[|r| - 1] == '\'' && r[1..|r| - 1] == key
  {
    "'" + key + "'"
  }

  /** The table's entry for `key`, as a dict subscript finds it: the first entry with that key. */
  function FindModel(table: seq<ModelSpec>, key: string): (r: Option<ModelSpec>)
    ensures r.None? <==> forall i :: 0 <= i < |table| ==> table[i].key != key
    ensures r.Some? ==> exists i :: 0 <= i < |table| && table[i] == r.value
                          && r.value.key == key && forall j :: 0 <= j < i ==> table[j].key != key
  {
    if table == [] then None
    else if table[0].key == key then Some(table[0])
    else
      var r := FindModel(table[1..], key);
      if r.Some? then
        var i :| 0 <= i < |table[1..]| && table[1..][i] == r.value
                   && r.value.key == key && forall j :: 0 <= j < i ==> table[1..][j].key != key;
        assert table[i + 1] == r.value;
        r
      else
        r
  }

  /** The keys of a table, in table order. */
  function ModelKeys(table: seq<ModelSpec>): (keys: seq<string>)
    ensures |keys| == |table| && forall i :: 0 <= i < |table| ==> keys[i] == table[i].key
  {
    if table == [] then [] else [table[0].key] + ModelKeys(table[1..])
  }

  /** The stored history of `id`, or the empty history a first request creates for it. */
  function HistoryOf(conversations: map<string, seq<Msg>>, id: string): seq<Msg> {
    if id in conversations then conversations[id] else []
  }

  /**
   * A stored history: user and assistant entries only, and every assistant
   * entry answers the user entry just before it. A user entry need not be
   * answered: an unreadable completion stores the question alone.
   */
  ghost predicate IsExchangeLog(h: seq<Msg>) {
    (forall i :: 0 <= i < |h| ==> h[i].role != System)
    && (h != [] ==> h[0].role == User)
    && (forall i :: 0 < i < |h| ==> h[i].role == Assistant ==> h[i - 1].role == User)
  }

  /** A log stays a log when a user entry, or an answer to a trailing user entry, is appended. */
  lemma LogExtend(h: seq<Msg>, m: Msg)
    requires IsExchangeLog(h)
    requires m.role == User || (m.role == Assistant && h != [] && h[|h| - 1].role == User)
    ensures IsExchangeLog(h + [m])
  {
  }

  /** The model table has no key twice, so a lookup by key is unambiguous. */
  lemma ModelTableKeysDistinct()
    ensures forall i, j :: 0 <= i < j < |ModelTable| ==> ModelTable[i].key != ModelTable[j].key
  {
  }

  class ChatManager {
    var conversations: map<string, seq<Msg>>
    const models: seq<ModelSpec> := ModelTable

    /** Every stored history is a log of questions and the answers they got. */
    ghost predicate Valid()
      reads this
    {
      forall id :: id in conversations ==> IsExchangeLog(conversations[id])
    }

    constructor ()
      ensures Valid() && conversations == map[]
    {
      conversations := map[];
    }

    /** The prompt for a new message: the system message, the stored history in order, then the new user message. */
    method BuildPrompt(conversationId: string, message: string) returns (prompt: seq<Msg>)
      requires conversationId in conversations
      ensures |prompt| == |conversations[conversationId]| + 2
      ensures prompt[0] == Msg(System, SystemPrompt)
      ensures prompt[1..|prompt| - 1] == conversations[conversationId]
      ensures prompt[|prompt| - 1] == Msg(User, message)
    {
      prompt := [Msg(System, SystemPrompt)];
      prompt := prompt + conversations[conversationId];
      prompt := prompt + [Msg(User, message)];
    }

    /**
     * `get_response`. An unknown id first gets an empty history, which stays
     * whatever happens next. The token cap is looked up before the completion
     * is called, so an unknown model raises `KeyError` and no call is made.
     * When the call completes, the history grows by the user message and the
     * answer, and the reply carries the answer and the id; when the lookup or
     * the call raises, the reply is an error with the exception's text and
     * the history is not extended; when only reading the answer raises, the
     * user message stays stored alone and the reply is an error. No other
     * conversation changes.
     */
    method GetResponse(conversationId: string, message: string, model: string, completion: Completion)
      returns (reply: Reply, call: Option<CompletionCall>)
      requires Valid()
      modifies this
      ensures Valid()
      ensures FindModel(models, model).None? ==> call == None
      ensures FindModel(models, model).Some? ==>
        call == Some(CompletionCall(model,
                       [Msg(System, SystemPrompt)] + HistoryOf(old(conversations), conversationId) + [Msg(User, message)],
                       FindModel(models, model).value.maxTokens))
      ensures call.Some? && completion.Completed? ==>
        conversations == old(conversations)[conversationId :=
          HistoryOf(old(conversations), conversationId) + [Msg(User, message), Msg(Assistant, completion.text)]]
        && reply == Reply(Success, completion.text, Some(conversationId))
      ensures call.None? ==>
        conversations == old(conversations)[conversationId := HistoryOf(old(conversations), conversationId)]
        && reply == Reply(Error, KeyErrorText(model), None)
      ensures call.Some? && completion.Raised? ==>
        conversations == old(conversations)[conversationId := HistoryOf(old(conversations), conversationId)]
        && reply == Reply(Error, completion.error, None)
      ensures call.Some? && completion.Unreadable? ==>
        conversations == old(conversations)[conversationId :=
          HistoryOf(old(conversations), conversationId) + [Msg(User, message)]]
        && reply == Reply(Error, completion.error, None)
    {
      if conversationId !in conversations {
        conversations := conversations[conversationId := []];
      }
      var prompt := BuildPrompt(conversationId, message);
      assert prompt == [Msg(System, SystemPrompt)] + conversations[conversationId] + [Msg(User, message)];
      var spec := FindModel(models, model);
      if spec.None? {
        return Reply(Error, KeyErrorText(model), None), None;
      }
      call := Some(CompletionCall(model, prompt, spec.value.maxTokens));
      match completion
      case Raised(error) =>
        reply := Reply(Error, error, None);
      case Unreadable(error) =>
        LogExtend(conversations[conversationId], Msg(User, message));
        conversations := conversations[conversationId := conversations[conversationId] + [Msg(User, message)]];
        reply := Reply(Error, error, None);
      case Completed(text) =>
        ghost var h := conversations[conversationId];
        LogExtend(conversations[conversationId], Msg(User, message));
        conversations := conversations[conversationId := conversations[conversationId] + [Msg(User, message)]];
        LogExtend(conversations[conversationId], Msg(Assistant, text));
        conversations := conversations[conversationId := conversations[conversationId] + [Msg(Assistant, text)]];
        assert conversations[conversationId] == h + [Msg(User, message), Msg(Assistant, text)];
        reply := Reply(Success, text, Some(conversationId));
    }

    /** `clear_conversation`: an existing id keeps its key and gets an empty history; an unknown id is reported. */
    method ClearConversation(conversationId: string) returns (reply: Reply)
      requires Valid()
      modifies this
      ensures Valid()
      ensures conversationId in old(conversations) ==>
        conversations == old(conversations)[conversationId := []]
        && reply == Reply(Success, "Conversation cleared", None)
      ensures conversationId !in old(conversations) ==>
        conversations == old(conversations) && reply == Reply(Error, "Conversation not found", None)
    {
      if conversationId in conversations {
        conversations := conversations[conversationId := []];
        return Reply(Success, "Conversation cleared", None);
      }
      return Reply(Error, "Conversation not found", None);
    }

    /**
     * POST /api/chat. A missing or empty `message` is answered with 400 and
     * the store is left alone. Otherwise a missing `conversation_id` is
     * replaced by `timestampId` (the server clock's reading), a missing
     * `model` by the default, and the request is answered with 200 and the
     * reply of `GetResponse` for that id, message and model.
     */
    method ChatRoute(body: ChatBody, timestampId: string, completion: Completion)
      returns (response: HttpResponse, call: Option<CompletionCall>)
      requires Valid()
      modifies this
      ensures Valid()
      ensures (body.message.None? || body.message.value == "") ==>
        response == HttpResponse(400, Reply(Error, "No message provided", None))
        && call == None && conversations == old(conversations)
      ensures body.message.Some? && body.message.value != "" ==>
        var id := if body.conversationId.Some? then body.conversationId.value else timestampId;
        var model := if body.model.Some? then body.model.value else DefaultModel;
        var message := body.message.value;
        var h := HistoryOf(old(conversations), id);
        response.code == 200
        && (FindModel(models, model).None? ==>
              call == None
              && conversations == old(conversations)[id := h]
              && response.body == Reply(Error, KeyErrorText(model), None))
        && (FindModel(models, model).Some? ==>
              call == Some(CompletionCall(model, [Msg(System, SystemPrompt)] + h + [Msg(User, message)],
                                          FindModel(models, model).value.maxTokens))
              && (completion.Completed? ==>
                    conversations == old(conversations)[id := h + [Msg(User, message), Msg(Assistant, completion.text)]]
                    && response.body == Reply(Success, completion.text, Some(id)))
              && (completion.Raised? ==>
                    conversations == old(conversations)[id := h]
                    && response.body == Reply(Error, completion.error, None))
              && (completion.Unreadable? ==>
                    conversations == old(conversations)[id := h + [Msg(User, message)]]
                    && response.body == Reply(Error, completion.error, None)))
    {
      var id := if body.conversationId.Some? then body.conversationId.value else timestampId;
      var model := if body.model.Some? then body.model.value else DefaultModel;
      if body.message.None? || body.message.value == "" {
        return HttpResponse(400, Reply(Error, "No message provided", None)), None;
      }
      var reply;
      reply, call := GetResponse(id, body.message.value, model, completion);
      response := HttpResponse(200, reply);
    }

    /** POST /api/clear. A missing or empty `conversation_id` is answered with 400 and the store is left alone. */
    method ClearRoute(body: ClearBody) returns (response: HttpResponse)
      requires Valid()
      modifies this
      ensures Valid()
      ensures (body.conversationId.None? || body.conversationId.value == "") ==>
        response == HttpResponse(400, Reply(Error, "No conversation ID provided", None))
        && conversations == old(conversations)
      ensures body.conversationId.Some? && body.conversationId.value != "" ==>
        var id := body.conversationId.value;
        (id in old(conversations) ==>
           conversations == old(conversations)[id := []]
           && response == HttpResponse(200, Reply(Success, "Conversation cleared", None)))
        && (id !in old(conversations) ==>
           conversations == old(conversations)
           && response == HttpResponse(200, Reply(Error, "Conversation not found", None)))
    {
      if body.conversationId.None? || body.conversationId.value == "" {
        return HttpResponse(400, Reply(Error, "No conversation ID provided", None));
      }
      var reply := ClearConversation(body.conversationId.value);
      response := HttpResponse(200, reply);
    }

    /** GET /api/models: the model table's keys in insertion order. */
    method GetModels() returns (keys: seq<string>)
      ensures keys == ["gpt-4-0", "gpt-4", "gpt-3.5-turbo"]
    {
      keys := ModelKeys(models);
    }
  }
}
