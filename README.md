# Tyo Technologies chat bot: session controller and conversation store

This project models the two state machines of the chat bot in Dafny and proves properties about them.

- **The client session controller** is the React `App` component. Its state is the message history, the input box, the busy flag `isThinking`, the selected model and the conversation id. Two handlers change that state. `handleSubmit` sends the typed message and reconciles the reply. `clearChat` asks the server to forget the conversation and starts a new one. The model is the class `ChatClient.Session`.
- **The server conversation store** is `ChatManager`. It keeps one history per conversation id. It builds each completion prompt from the system message, the stored history and the new message, and it extends the history only when the completion succeeds. Three routes sit in front of it: POST `/api/chat`, POST `/api/clear` and GET `/api/models`. The model is the class `ChatServer.ChatManager`.

Each network or completion call is replaced by its outcome, which the caller passes in:

- `ChatOutcome` is a parsed reply or a transport failure.
- `notifyOk` says whether the clear notification resolved.
- `Completion` is the completion's text, the text of the exception the call raised, or the text of the exception raised when reading the answer out of a returned response.

Clock readings are passed in as ids: `initialId`, `freshId` and `timestampId`.

Files:

- `wrappers.dfy`: `Option`.
- `js_text.dfy`: ECMAScript `String.prototype.trim` and its meaning.
- `chat_client.dfy`: the session controller.
- `chat_server.dfy`: the store and the routes.
- `integration.dfy`: how the client's model list meets the server's table.
- `scenarios.dfy`: whole client sessions with their outcomes given.

On these points the code may surprise a reader; the model follows the code:

- The message that is stored and sent is the raw, **untrimmed** input. Trimming only decides whether anything happens at all.
- `clearChat` resets the history and the id **only when the notification call resolves**. When the call throws, the error is only logged and the state stays as it was.
- The new conversation id is a millisecond clock reading. It is **not guaranteed** to differ from the old one. `Scenarios.ClearTwice` shows a clear that keeps the same id.
- The guard against overlapping sends is **not in the handler**. It is the `disabled` attribute of the input and the send button. `handleSubmit` itself checks only that `input.trim()` is non-empty. The model states this gate as `Session.SendEnabled`. `Session.Submit` runs one whole handler as one atomic step. Between steps, `Session.Valid()` holds: the session is not busy, the history is a run of (user, reply) pairs, and the model is one the selector offers.

## Model

| member | source | states |
|---|---|---|
| JsText.TrimStart | frontend/src/App.jsx:22 | the result is a suffix of the input, the dropped prefix is all whitespace, and the result does not start with whitespace |
| JsText.TrimEnd | frontend/src/App.jsx:22 | the result is a prefix of the input, the dropped suffix is all whitespace, and the result does not end with whitespace |
| JsText.Trim | frontend/src/App.jsx:22 | `trim()` gives an infix of the input with a blank prefix and a blank suffix dropped; a non-empty result starts and ends with non-whitespace |
| JsText.TrimIsEmptyIffBlank | frontend/src/App.jsx:22 | `input.trim()` is empty (falsy) exactly when every character of the input is JavaScript whitespace, in both directions |
| ChatClient.ReplyEntry | frontend/src/App.jsx:45-51 | the entry reconciling a reply is never a user entry; it is an assistant entry exactly when the reply's status is `'success'` |
| ChatClient.Session.constructor | frontend/src/App.jsx:5-9 | a new session has an empty history and input, is not busy, uses `gpt-3.5-turbo` and has the given id |
| ChatClient.Session.SetInput | frontend/src/App.jsx:139 | the input box holds the typed text |
| ChatClient.Session.SelectModel | frontend/src/App.jsx:81-89 | the model becomes the chosen one of the three offered values |
| ChatClient.Session.SendEnabled | frontend/src/App.jsx:142-146 | the send button is enabled exactly when the session is not busy and the input is not blank |
| ChatClient.Session.BeginSubmit | frontend/src/App.jsx:20-41 | a blank input changes nothing and sends nothing; otherwise one user entry with the untrimmed text is appended, the input becomes empty, the busy flag is raised, and the request carries that text, the current id and the current model |
| ChatClient.Session.FinishSubmit | frontend/src/App.jsx:43-54 | a success reply appends the assistant text, another status appends `"Error: "` + the text, a transport failure appends `"Error: Failed to reach server"`; the busy flag ends false on every path |
| ChatClient.Session.Submit | frontend/src/App.jsx:20-55 | for a blank input nothing changes and nothing is sent; otherwise the history is the old one + [user entry, reply entry], the input is empty and the request carried the raw text, id and model; afterwards the session is not busy, model and id are unchanged, and it is still a transcript of pairs |
| ChatClient.Session.Clear | frontend/src/App.jsx:57-72 | the notification carries the id in force before the reset; when it resolves, the history becomes empty and the id becomes the fresh one, otherwise both stay as they were; the busy flag, model and input never change |
| ChatServer.KeyErrorText | backend/app.py:43-58 | the error text for an unknown model is the model key between two single quotes |
| ChatServer.LogExtend | backend/app.py:49-50 | appending a user entry, or an assistant entry right after a user entry, keeps a history a log in which every answer follows its question |
| ChatServer.FindModel | backend/app.py:43 | the lookup fails exactly when no entry has the key; when it succeeds, it returns the first entry with that key |
| ChatServer.ModelKeys | backend/app.py:94 | the keys of the table, one per entry, in table order |
| ChatServer.ModelTableKeysDistinct | backend/app.py:21-25 | no key appears twice in the model table |
| ChatServer.ChatManager.constructor | backend/app.py:17-25 | the store starts with no conversations, so every history it holds is trivially a log of questions and answers |
| ChatServer.ChatManager.BuildPrompt | backend/app.py:32-36 | the prompt is the system message, then the stored history in order, then the new user message, so its length is the history's length + 2 |
| ChatServer.ChatManager.GetResponse | backend/app.py:27-58 | an unknown id gets an empty history that stays even on failure; an unknown model raises before any completion call; the completion request carries the system message, the stored history and the new message, plus the model's token cap; on success the history grows by exactly the user message and then the answer, and the reply has status success, the answer and the id; when the call raises, the reply is an error with the exception text and the history is not extended; when reading the answer raises after the question was stored, only the user message is appended and the reply is an error; no other conversation changes; every stored answer still follows its question |
| ChatServer.ChatManager.ClearConversation | backend/app.py:60-64 | an existing id keeps its key with an empty history and gets "Conversation cleared"; a missing id gets the error "Conversation not found" and the store is unchanged |
| ChatServer.ChatManager.ChatRoute | backend/app.py:68-79 | a missing or empty message gets a 400 with "No message provided" and leaves the store alone; otherwise a missing id becomes the timestamp id and a missing model becomes `gpt-3.5-turbo`, and the answer is a 200 whose body, completion request and new store are exactly those of `get_response` for that id, message and model, outcome by outcome |
| ChatServer.ChatManager.ClearRoute | backend/app.py:81-90 | a missing or empty conversation id gets a 400 with "No conversation ID provided" and the store is unchanged; otherwise a stored id is reset to an empty history and answered 200 with "Conversation cleared", and an unknown id is answered 200 with the error "Conversation not found" with the store unchanged |
| ChatServer.ChatManager.GetModels | backend/app.py:92-94 | exactly the three model keys `gpt-4-0`, `gpt-4`, `gpt-3.5-turbo`, in that order |
| Integration.ClientModelsKnownToServer | frontend/src/App.jsx:86-88 | every model the client offers, and its default, is a key of the server's model table (backend/app.py:21-25), so the unknown-model error cannot come from the bundled client |
| Scenarios.AnsweredExchange | frontend/src/App.jsx:20-55 | "Hello" answered with success "Hi there" gives the history [user "Hello", assistant "Hi there"] and sends "Hello" with the session's id and default model |
| Scenarios.RejectedExchange | frontend/src/App.jsx:47-48 | a `"failure"` reply "rate limited" gives the history [user "Hi", error "Error: rate limited"] |
| Scenarios.UntrimmedExchange | frontend/src/App.jsx:24-37 | the padded input "  Hi " is stored and sent as typed; a transport failure appends "Error: Failed to reach server" |
| Scenarios.BlankSubmit | frontend/src/App.jsx:22 | a whitespace-only input sends nothing and leaves the history and the input box unchanged |
| Scenarios.ClearTwice | frontend/src/App.jsx:57-72 | after one exchange, a failed notification keeps the history [user "Hello", assistant "Hi there"]; a successful one in the same millisecond empties the history but leaves the id as it was; both notifications carry that id |

## Left out

- Rendering is not modelled: the JSX, styling, the scroll-to-bottom effect and the markup of the selector and buttons. They are presentation. The gating by `disabled` is kept as `Session.SendEnabled`.
- `fetch`, HTTP, JSON serialisation, Flask, CORS and environment loading are not modelled. They are I/O. Their results are the outcome parameters.
- The OpenAI call is not modelled. It is a foreign call. Only the request it receives (`CompletionCall`: model, prompt, token cap) and its outcome (`Completion`) are modelled. The float tuning arguments `temperature`, `presence_penalty` and `frequency_penalty` are dropped.
- `Date.now()` and `datetime.now().timestamp()` are not modelled. They are clock reads. The ids are parameters.
- Async interleaving is not modelled, for example `clearChat` completing while a `handleSubmit` is still awaiting its reply. That is concurrency. Each handler is one atomic step. `BeginSubmit` and `FinishSubmit` describe the two halves around the `await`.
- A reply without a `message` field is not modelled. JavaScript would render it as `'Error: undefined'`, which is a coercion detail.
- JSON field values that are `null` or not strings are not modelled. A `ChatBody`/`ClearBody` field is either a string or missing. So a present-but-`null` `conversation_id` or `model` (which Python's `dict.get` would return as `None` rather than the default), and falsy values such as `0` or `[]`, are out of scope. A missing JSON body is out of scope too.
- ChatServer.KeyErrorText: renders `str(KeyError(model))` as the key in single quotes. It does not model the escaping `repr` applies to keys that contain quotes or backslashes.
- ChatServer.ChatManager.GetResponse: a completion whose first choice has `None` as its content is not modelled. The source would store an assistant entry holding `None` and reply success with `None`; here the answer is always a string.
- The `name` field of each model table entry is carried in `ModelSpec` but used by no operation, as in the source.
