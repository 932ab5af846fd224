# Zava Storefront chat: a Dafny model of the chat turn

The storefront's chat page lets a visitor talk to a remote language model.
The conversation lives in the visitor's session under the key
`"ChatHistory"` as a list of `{Role, Content}` records. One turn goes like
this:

1. The controller declines blank input.
2. It loads the history.
3. It puts a fixed system preamble first when the history is empty.
4. It appends the user's message.
5. It asks the completion service for a reply.
6. It appends that reply as the assistant's message.
7. It stores the history again.

The completion service validates its configuration when it is built. It
turns each history entry whose role is exactly `"system"`, `"user"` or
`"assistant"` into a role-specific request message and drops every other
entry. It names the configured deployment as the model and makes the remote
call. A failed call becomes the reply text
`"Error: Unable to get a response from the AI model. " + cause`, so the
turn never fails.

Modules:

- `Wrappers` (wrappers.dfy): `Option` and `Result`. A `Result.Err` stands
  for an exception the source throws. For `ChatService.Create` it carries
  the exception's message. For `Deserialize` and `LoadHistory` it carries
  only the exception's type name, `"JsonException"`.
- `Services` (services.dfy), for `src/Services/ChatService.cs`:
  - `ChatMessage`.
  - The request-message variants, the request and the outcome of the remote
    call (`Success(text)` or `Failure(cause)`).
  - `ReadSettings`, the validation and defaulting of the configuration.
  - The class `ChatService`. Its settings are read-only fields.
    `GetChatResponse` builds the request messages with a loop, as the
    source's `foreach`/`switch` does. It is proved against the function
    `RequestMessages`.
  - The remote call is the parameter `complete`, a function from request to
    outcome.
  - A ghost field `calls` on the service records every history that
    `GetChatResponse` is asked to answer. The controller's contracts use it
    to say "blank input makes no call" and "the service receives the
    updated history".
- `SessionJson` (session_json.dfy): the text form in which the history is
  stored in the session, with a serializer and a parser. Proofs show that
  parsing a serialized history gives it back, and that the parser accepts
  only `null` and texts the serializer writes.
- `Controllers` (controllers.dfy), for `src/Controllers/ChatController.cs`:
  - The class `ChatController` over a session `map<string, string>`, with
    `Index`, `SendMessage`, `ClearChat`, `GetChatHistory` and
    `SaveChatHistory`.
  - The functions `LoadHistory`, `PromptFor` and `AfterTurn` that specify
    them.
  - The conversation-shape invariant `WellFormed`: the preamble, then user
    and assistant messages taking turns. A turn preserves it.

The system's design notes and the code disagree in two places. The notes
describe a lenient completion service that enters an "unconfigured"
state when the endpoint or key is missing. The code shown throws
`InvalidOperationException` instead. The model follows the code:
`ChatService.Create` returns `Err` with the exception's message, and there is
no unconfigured mode. The notes also say a stored history that fails
to parse reads as empty. In the code a malformed stored text throws. Only a
missing or empty value, or the JSON `null`, reads as an empty history. The
model follows the code here too: `LoadHistory` returns `Err("JsonException")`
and `SendMessage` then stops before calling the service or storing anything.

## Model

| member | source | states |
|---|---|---|
| `Services.ReadSettings` | src/Services/ChatService.cs:16-20 | fails exactly when the endpoint or the API key setting is absent, with the endpoint's message first and then the key's; otherwise keeps both values; the deployment name is the configured value if present, else `"Phi-4"`; a present empty value counts as present |
| `Services.ChatService.constructor` | src/Services/ChatService.cs:20-24 | the read-only fields hold the validated endpoint, key and deployment name; no call has been made yet |
| `Services.ChatService.Create` | src/Services/ChatService.cs:12-25 | construction fails, with the same message, exactly when the settings are invalid; otherwise gives a fresh service whose fields are the configured values and whose deployment name is defaulted |
| `Services.ToRequestMessage` | src/Services/ChatService.cs:38-49 | an entry gives a request message if and only if its role is exactly one of the three tags; that message carries the same role and unchanged content |
| `Services.RequestMessageRoundTrip` | src/Services/ChatService.cs:38-49 | every request variant is the translation of the entry it stands for (the mapping is inverted by `FromRequestMessage`) |
| `Services.RequestMessages` | src/Services/ChatService.cs:36-50 | the request never has more messages than the history |
| `Services.RequestMessagesAreKeptHistory` | src/Services/ChatService.cs:36-50 | the request messages are exactly the history's entries with a recognised role: one per kept entry, in order, each with its role and content |
| `Services.RequestMessagesAppend` | src/Services/ChatService.cs:36-50 | building the request commutes with concatenating histories, so relative order survives |
| `Services.UnknownRoleDropped` | src/Services/ChatService.cs:38-49 | an entry with any other role (such as `"System"` or `""`) is dropped without error: the request equals the one built without it |
| `Services.RequestKeepsAllIffRolesKnown` | src/Services/ChatService.cs:36-50 | the request has one message per entry if and only if every role is recognised, and then it stands for the whole history unchanged |
| `Services.FoldOutcome` | src/Services/ChatService.cs:52-63 | a successful call's text is returned unchanged; a failure gives text that starts with the fixed error prefix and continues with the cause |
| `Services.FailureIndistinguishable` | src/Services/ChatService.cs:58-63 | a generated text that starts with the error prefix is returned as the same string as a failure with the rest as its cause |
| `Services.ChatService.GetChatResponse` | src/Services/ChatService.cs:27-65 | the loop builds `RequestMessages` of the history; the request's model is the deployment name; the result is the folded outcome of the one remote call on that request; the service's call log grows by exactly this history |
| `SessionJson.Serialize` | src/Controllers/ChatController.cs:90 | the stored text is never empty and never the JSON `null` |
| `SessionJson.Deserialize` | src/Controllers/ChatController.cs:85 | the JSON `null` reads as no list; any error is the serializer's exception |
| `SessionJson.DeserializeSerialize` | src/Controllers/ChatController.cs:85-90 | parsing a serialized history gives back the same messages in the same order |
| `SessionJson.SerializeDeserialize` | src/Controllers/ChatController.cs:85 | parsing does not fail open: a text the parser accepts is `null` or exactly the serializer's text for the history it returns, so with `LoadHistory` the empty history comes only from an absent key, `""`, `null` or `[]` |
| `Controllers.LoadHistory` | src/Controllers/ChatController.cs:78-86 | a missing key, an empty stored value or a stored `null` gives the empty history; any error is the serializer's exception |
| `Controllers.StoreThenLoad` | src/Controllers/ChatController.cs:88-92 | loading after storing a history returns that history; every other session key is unchanged |
| `Controllers.ClearThenLoad` | src/Controllers/ChatController.cs:71-76 | after the key is removed the history is empty; every other key keeps its presence and its value |
| `Controllers.PromptEndsWithUserMessage` | src/Controllers/ChatController.cs:48-56 | the history passed to the service ends with the user's message, whose content is the input unchanged |
| `Controllers.FirstTurn` | src/Controllers/ChatController.cs:38-63 | a turn on an empty history gives exactly the preamble, then the user's message, then the reply |
| `Controllers.LaterTurn` | src/Controllers/ChatController.cs:39-63 | a turn on a non-empty history grows it by exactly two, keeps it as a prefix, and ends with the user's message and then the reply |
| `Controllers.PreambleOnlyOnEmptyHistory` | src/Controllers/ChatController.cs:38-46 | a turn grows the history by three, and starts with a preamble not already there, if and only if the history was empty |
| `Controllers.TurnPreservesWellFormed` | src/Controllers/ChatController.cs:38-63 | a turn keeps the shape "preamble, then user and assistant taking turns" |
| `Controllers.WellFormedPromptReachesModel` | src/Controllers/ChatController.cs:36-56 | in a history of that shape the preamble is the only system message, and no entry of the prompt built from it is dropped from the request |
| `Controllers.ChatController.constructor` | src/Controllers/ChatController.cs:13-17 | the controller holds the given service and session |
| `Controllers.ChatController.Index` | src/Controllers/ChatController.cs:19-23 | returns the stored history and changes nothing |
| `Controllers.ChatController.SendMessage` | src/Controllers/ChatController.cs:26-68 | blank input changes nothing and leaves the service's call log unchanged; a malformed stored text throws with nothing changed; otherwise the service's call log grows by exactly the prompt (preamble if the history was empty, then the user's message), and the stored history becomes the prompt followed by the service's reply verbatim; no other session key changes; the shape invariant is preserved |
| `Controllers.ChatController.ClearChat` | src/Controllers/ChatController.cs:71-76 | removes only the history key, after which the history loads as empty |
| `Controllers.ChatController.GetChatHistory` | src/Controllers/ChatController.cs:78-86 | returns the history the session holds, as `LoadHistory` describes it |
| `Controllers.ChatController.SaveChatHistory` | src/Controllers/ChatController.cs:88-92 | replaces only the history key's value, after which the history loads back unchanged |

## Left out

- The Azure SDK client, `AzureKeyCredential`, the network and `async`/`await`: the remote call is the parameter `complete`. Its exception's message is the `cause` of `Failure`.
- `Services.ChatService.Create`: the service constructor can also fail inside library code, and the model does not capture these failures. `new Uri(endpoint)` rejects an endpoint that is not a valid URI. `new AzureKeyCredential(apiKey)` rejects an empty key, so for a present but empty `AzureAI:ApiKey` the model returns `Ok` where the source throws. Also, the configuration looks setting names up ignoring case, while the model's map compares them exactly. So `Create` fails on a subset of the inputs that make the source throw.
- Logging and token-usage reporting, including the 50-character message preview that only feeds the log.
- The MVC views and redirects. `SendMessage` returns `Ok(())` where the source redirects. `Index` returns the history it would render.
- The session backend and its expiry: the session is a plain map owned by the controller object.
- Two requests racing on the same session: the model runs one action at a time.
- `System.Text.Json` is not part of this model. In its place is a minimal text form with the same shape: an array of `{"Role":…,"Content":…}` objects. It escapes only the quotation mark and the backslash. The real encoder also escapes control, non-ASCII and HTML-sensitive characters, and its parser accepts whitespace, other property orders and missing properties. The model's parser accepts only the serializer's own form and `null` (proved by `SerializeDeserialize`), and treats anything else as malformed.
- Null strings. Dafny strings cannot be null, so a null `userMessage` is covered by the empty-string case of the blank check. Null configuration values are covered by absent keys. A null exception message is not modelled.
- Characters: a Dafny `char` is a Unicode scalar value, and a .NET `char` is a UTF-16 code unit. The white-space set is the one .NET uses. Surrogate pairs are not modelled.
- `Services.RequestMessages`: its own contract gives only a length bound. The full filtering property is stated by `RequestMessagesAreKeptHistory`, `UnknownRoleDropped` and `RequestKeepsAllIffRolesKnown`.
