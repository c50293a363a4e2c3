/** Whole sessions driven through the client's handlers, with the outcomes given. */
module Scenarios {
  import opened Wrappers
  import opened ChatClient
  import opened JsText

  /** "Hello" answered with success: the history is the user entry then the assistant's text. */
  method AnsweredExchange() returns (history: seq<Message>, request: Option<ChatRequest>)
    ensures history == [Message(User, "Hello"), Message(Assistant, "Hi there")]
    ensures request == Some(ChatRequest("Hello", "1700000000000", "gpt-3.5-turbo"))
  {
    var s := new Session("1700000000000");
    s.SetInput("Hello");
    assert !IsJsWhitespace(s.input[0]);
    request := s.Submit(Reply("success", "Hi there"));
    history := s.messages;
  }

  /** A non-success status: the server's text behind the "Error: " prefix. */
  method RejectedExchange() returns (history: seq<Message>)
    ensures history == [Message(User, "Hi"), Message(Error, "Error: rate limited")]
  {
    var s := new Session("1");
    s.SetInput("Hi");
    assert !IsJsWhitespace(s.input[0]);
    assert "failure"[0] != "success"[0];
    assert "Error: " + "rate limited" == "Error: rate limited";
    var _ := s.Submit(Reply("failure", "rate limited"));
    history := s.messages;
  }

  /** Padding is kept: the stored and sent text is the untrimmed input. */
  method UntrimmedExchange() returns (history: seq<Message>, request: Option<ChatRequest>)
    ensures history == [Message(User, "  Hi "), Message(Error, "Error: Failed to reach server")]
    ensures request.Some? && request.value.message == "  Hi "
  {
    var s := new Session("1");
    s.SetInput("  Hi ");
    assert !IsJsWhitespace(s.input[2]);
    request := s.Submit(TransportFailure);
    history := s.messages;
  }

  /** A blank input sends nothing and leaves the box as typed. */
  method BlankSubmit() returns (history: seq<Message>, input: string, request: Option<ChatRequest>)
    ensures history == [] && input == " \t\n" && request == None
  {
    var s := new Session("1");
    s.SetInput(" \t\n");
    request := s.Submit(Reply("success", "unused"));
    history, input := s.messages, s.input;
  }

  /**
   * Clearing after one exchange. When the notification fails nothing is
   * reset; when it succeeds within the same clock millisecond the "fresh"
   * id equals the old one. Both notifications carry the id in force.
   */
  method ClearTwice() returns (kept: seq<Message>, cleared: seq<Message>, notices: seq<ClearRequest>, idAfter: string)
    ensures kept == [Message(User, "Hello"), Message(Assistant, "Hi there")]
    ensures cleared == []
    ensures notices == [ClearRequest("1700000000000"), ClearRequest("1700000000000")]
    ensures idAfter == "1700000000000"
  {
    var s := new Session("1700000000000");
    s.SetInput("Hello");
    assert !IsJsWhitespace(s.input[0]);
    var _ := s.Submit(Reply("success", "Hi there"));
    var failed := s.Clear(false, "1700000000001");
    kept := s.messages;
    var succeeded := s.Clear(true, "1700000000000");
    cleared, idAfter := s.messages, s.conversationId;
    notices := [failed, succeeded];
  }
}
