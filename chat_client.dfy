/**
 * The chat client's session controller (the `App` component): the message
 * history, the input box, the busy flag, the selected model and the
 * conversation id, and the two handlers that change them, submitting a
 * message and clearing the chat. Each network call is replaced by the
 * outcome it resolved to, given as a parameter.
 */
module ChatClient {
  import opened Wrappers
  import opened JsText

  datatype Role = User | Assistant | Error

  /** One entry of the chat history as rendered by the client. */
  datatype Message = Message(role: Role, content: string)

  /** The JSON body posted to /api/chat. */
  datatype ChatRequest = ChatRequest(message: string, conversationId: string, model: string)

  /** The JSON body posted to /api/clear. */
  datatype ClearRequest = ClearRequest(conversationId: string)

  /**
   * How the /api/chat round trip resolved: a parsed reply body with its
   * `status` and `message` fields, or a throw from `fetch` or `response.json()`.
   */
  datatype ChatOutcome = Reply(status: string, message: string) | TransportFailure

  const DefaultModel: string := "gpt-3.5-turbo"

  /** The values the model selector offers, in display order. */
  const ModelOptions: seq<string> := ["gpt-3.5-turbo", "gpt-4", "gpt-4-0"]

  const ReachFailureText: string := "Error: Failed to reach server"

  /** The entry the reply handler appends once the round trip has resolved. */
  function ReplyEntry(outcome: ChatOutcome): (m: Message)
    ensures m.role != User
    ensures m.role == Assistant <==> outcome.Reply? && outcome.status == "success"
  {
    match outcome
    case Reply(status, text) =>
      if status == "success" then Message(Assistant, text) else Message(Error, "Error: " + text)
    case TransportFailure => Message(Error, ReachFailureText)
  }

  /**
   * A history between submissions: a run of exchanges, each a user entry
   * followed by the assistant or error entry that reconciled its reply.
   */
  ghost predicate IsTranscript(h: seq<Message>) {
    |h| % 2 == 0 && forall i :: 0 <= i < |h| ==> (h[i].role == User <==> i % 2 == 0)
  }

  class Session {
    var messages: seq<Message>
    var input: string
    var isThinking: bool
    var model: string
    var conversationId: string

    /** The state between two handler runs: not busy, a transcript, a model the selector offers. */
    ghost predicate Valid()
      reads this
    {
      !isThinking && IsTranscript(messages) && model in ModelOptions
    }

    /** Session start; `initialId` stands for `Date.now().toString()`. */
    constructor (initialId: string)
      ensures Valid()
      ensures messages == [] && input == "" && !isThinking
      ensures model == DefaultModel && conversationId == initialId
    {
      messages := [];
      input := "";
      isThinking := false;
      model := DefaultModel;
      conversationId := initialId;
    }

    /** The input box's change handler. */
    method SetInput(text: string)
      modifies this`input
      ensures input == text
    {
      input := text;
    }

    /** The model selector's change handler; the selector offers only `ModelOptions`. */
    method SelectModel(choice: string)
      requires choice in ModelOptions
      modifies this`model
      ensures model == choice
    {
      model := choice;
    }

    /**
     * Whether the send button is enabled: not busy and the input is not
     * blank. Submitting the form is the only way to reach `Submit`, and this
     * gate, not the handler, is what keeps two sends from overlapping.
     */
    function SendEnabled(): (enabled: bool)
      reads this
      ensures enabled <==> !isThinking && !IsBlank(input)
    {
      TrimIsEmptyIffBlank(input);
      !isThinking && Trim(input) != []
    }

    /**
     * The part of `handleSubmit` that runs before the request is awaited.
     * A blank input changes nothing and sends nothing. Otherwise the raw,
     * untrimmed input is appended as a user entry, the box is emptied, the
     * busy flag is raised, and the returned request carries that raw text
     * with the current conversation id and model.
     */
    method BeginSubmit() returns (request: Option<ChatRequest>)
      modifies this`messages, this`input, this`isThinking
      ensures IsBlank(old(input)) ==>
        request == None && messages == old(messages) && input == old(input) && isThinking == old(isThinking)
      ensures !IsBlank(old(input)) ==>
        request == Some(ChatRequest(old(input), conversationId, model))
        && messages == old(messages) + [Message(User, old(input))]
        && input == "" && isThinking
    {
      TrimIsEmptyIffBlank(input);
      if Trim(input) == [] {
        return None;
      }
      var userMessage := input;
      input := "";
      isThinking := true;
      messages := messages + [Message(User, userMessage)];
      request := Some(ChatRequest(userMessage, conversationId, model));
    }

    /**
     * The part of `handleSubmit` after the request resolved: one entry for
     * the outcome is appended, and the `finally` block lowers the busy flag.
     */
    method FinishSubmit(outcome: ChatOutcome)
      modifies this`messages, this`isThinking
      ensures outcome.Reply? && outcome.status == "success" ==>
        messages == old(messages) + [Message(Assistant, outcome.message)]
      ensures outcome.Reply? && outcome.status != "success" ==>
        messages == old(messages) + [Message(Error, "Error: " + outcome.message)]
      ensures outcome.TransportFailure? ==>
        messages == old(messages) + [Message(Error, ReachFailureText)]
      ensures !isThinking
    {
      messages := messages + [ReplyEntry(outcome)];
      isThinking := false;
    }

    /**
     * `handleSubmit` as one step whose round trip resolved to `outcome`.
     * A blank input is a no-op. Otherwise the history grows by the user
     * entry and the entry for the outcome, the box is emptied, and the
     * request that was sent is returned. The busy flag, the model and the
     * conversation id end as they started.
     */
    method Submit(outcome: ChatOutcome) returns (request: Option<ChatRequest>)
      requires Valid()
      modifies this`messages, this`input, this`isThinking
      ensures Valid()
      ensures IsBlank(old(input)) ==>
        request == None && messages == old(messages) && input == old(input)
      ensures !IsBlank(old(input)) ==>
        request == Some(ChatRequest(old(input), conversationId, model))
        && messages == old(messages) + [Message(User, old(input)), ReplyEntry(outcome)]
        && input == ""
      ensures !isThinking && model == old(model) && conversationId == old(conversationId)
    {
      request := BeginSubmit();
      if request.Some? {
        FinishSubmit(outcome);
        ghost var h := old(messages);
        assert messages == h + [Message(User, old(input)), ReplyEntry(outcome)];
        forall i | 0 <= i < |messages| ensures messages[i].role == User <==> i % 2 == 0 {
          if i < |h| {
            assert messages[i] == h[i];
          }
        }
      }
    }

    /**
     * `clearChat`: notifies the server with the id in force before the
     * reset; `notifyOk` says whether that call resolved, `freshId` stands
     * for the new `Date.now().toString()`. Only when the call resolved are
     * the history emptied and the id replaced; a failed call is only logged.
     */
    method Clear(notifyOk: bool, freshId: string) returns (notice: ClearRequest)
      requires Valid()
      modifies this`messages, this`conversationId
      ensures Valid()
      ensures notice == ClearRequest(old(conversationId))
      ensures notifyOk ==> messages == [] && conversationId == freshId
      ensures !notifyOk ==> messages == old(messages) && conversationId == old(conversationId)
      ensures isThinking == old(isThinking) && model == old(model) && input == old(input)
    {
      notice := ClearRequest(conversationId);
      if notifyOk {
        messages := [];
        conversationId := freshId;
      }
    }
  }
}
