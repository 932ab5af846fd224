/** The chat controller: one turn of the conversation, kept in the visitor's
    session under a fixed key, and the actions that show and clear it. */
module Controllers {
  import opened Wrappers
  import opened Services
  import opened SessionJson

  const ChatHistorySessionKey := "ChatHistory"

  /** The system message that opens every conversation. */
  const SystemPreamble := ChatMessage(SystemRole,
    "You are a helpful shopping assistant for Zava Storefront. Help customers with product questions, recommendations, and general inquiries. Be friendly and concise.")

  /** A character that the framework's white-space test accepts: the Unicode
      White_Space characters (the control characters U+0009 to U+000D, U+0085,
      and the space, line and paragraph separators). */
  predicate IsWhiteSpace(c: char) {
    || ('\t' <= c <= '\r')
    || c == ' '
    || c == '\U{85}'
    || c == '\U{A0}'
    || c == '\U{1680}'
    || ('\U{2000}' <= c <= '\U{200A}')
    || c == '\U{2028}'
    || c == '\U{2029}'
    || c == '\U{202F}'
    || c == '\U{205F}'
    || c == '\U{3000}'
  }

  /** The input test of a turn: empty, or white space only. */
  predicate IsNullOrWhiteSpace(s: string) {
    forall i :: 0 <= i < |s| ==> IsWhiteSpace(s[i])
  }

  /** The conversation a session holds: empty when the key is absent, its
      value is empty or the stored text is the JSON null; otherwise what the
      stored text describes, or the serializer's error when it is malformed. */
  function LoadHistory(session: map<string, string>): (r: Result<seq<ChatMessage>, string>)
    ensures ChatHistorySessionKey !in session ==> r == Ok([])
    ensures ChatHistorySessionKey in session && session[ChatHistorySessionKey] == "" ==> r == Ok([])
    ensures ChatHistorySessionKey in session && session[ChatHistorySessionKey] == JsonNull ==> r == Ok([])
    ensures r.Err? ==> r.error == JsonException
  {
    if ChatHistorySessionKey !in session || session[ChatHistorySessionKey] == "" then Ok([])
    else
      match Deserialize(session[ChatHistorySessionKey])
      case Err(e) => Err(e)
      case Ok(None) => Ok([])
      case Ok(Some(history)) => Ok(history)
  }

  /** The session after the conversation `history` is stored in it. */
  function StoreHistory(session: map<string, string>, history: seq<ChatMessage>): map<string, string> {
    session[ChatHistorySessionKey := Serialize(history)]
  }

  /** Storing a conversation and loading it back yields the same messages in
      the same order, and leaves every other session key as it was. */
  lemma StoreThenLoad(session: map<string, string>, history: seq<ChatMessage>)
    ensures LoadHistory(StoreHistory(session, history)) == Ok(history)
    ensures forall k :: k != ChatHistorySessionKey ==>
              (k in StoreHistory(session, history) <==> k in session)
    ensures forall k :: k != ChatHistorySessionKey && k in session ==>
              StoreHistory(session, history)[k] == session[k]
  {
    DeserializeSerialize(history);
  }

  /** After the key is removed the conversation is empty, and the other keys
      are untouched. */
  lemma ClearThenLoad(session: map<string, string>)
    ensures LoadHistory(session - {ChatHistorySessionKey}) == Ok([])
    ensures forall k :: k != ChatHistorySessionKey ==>
              (k in session - {ChatHistorySessionKey} <==> k in session)
    ensures forall k :: k != ChatHistorySessionKey && k in session ==>
              (session - {ChatHistorySessionKey})[k] == session[k]
  {
  }

  /** The history handed to the completion service: the loaded history, with
      the preamble first when it was empty, then the user's message verbatim. */
  function PromptFor(history: seq<ChatMessage>, userMessage: string): seq<ChatMessage> {
    (if |history| == 0 then history + [SystemPreamble] else history) + [ChatMessage(UserRole, userMessage)]
  }

  /** The history after a turn: the prompt followed by the service's reply. */
  function AfterTurn(history: seq<ChatMessage>, userMessage: string, response: string): seq<ChatMessage> {
    PromptFor(history, userMessage) + [ChatMessage(AssistantRole, response)]
  }

  /** The prompt ends with the user's message, unchanged. */
  lemma PromptEndsWithUserMessage(history: seq<ChatMessage>, userMessage: string)
    ensures |PromptFor(history, userMessage)| > 0
    ensures PromptFor(history, userMessage)[|PromptFor(history, userMessage)| - 1] == ChatMessage(UserRole, userMessage)
  {
  }

  /** A turn on an empty conversation gives exactly the preamble, the user's
      message and the reply. */
  lemma FirstTurn(userMessage: string, response: string)
    ensures AfterTurn([], userMessage, response) ==
            [SystemPreamble, ChatMessage(UserRole, userMessage), ChatMessage(AssistantRole, response)]
  {
  }

  /** A turn on a non-empty conversation keeps it as a prefix and adds exactly
      the user's message and then the reply. */
  lemma LaterTurn(history: seq<ChatMessage>, userMessage: string, response: string)
    requires |history| > 0
    ensures |AfterTurn(history, userMessage, response)| == |history| + 2
    ensures AfterTurn(history, userMessage, response)[..|history|] == history
    ensures AfterTurn(history, userMessage, response)[|history|] == ChatMessage(UserRole, userMessage)
    ensures AfterTurn(history, userMessage, response)[|history| + 1] == ChatMessage(AssistantRole, response)
  {
  }

  /** The preamble is added once, at the start: a turn adds a system message
      exactly when the history it starts from is empty. */
  lemma PreambleOnlyOnEmptyHistory(history: seq<ChatMessage>, userMessage: string, response: string)
    ensures var after := AfterTurn(history, userMessage, response);
            (|history| == 0 <==> |after| == |history| + 3)
            && (|history| == 0 <==> after[0] == SystemPreamble && after[0] !in history)
  {
  }

  /** The shape of every conversation the controller builds from an empty
      session: nothing, or the preamble followed by user and assistant
      messages taking turns. */
  predicate WellFormed(history: seq<ChatMessage>) {
    || |history| == 0
    || (&& history[0] == SystemPreamble
        && |history| % 2 == 1
        && forall i :: 1 <= i < |history| ==>
             history[i].role == (if i % 2 == 1 then UserRole else AssistantRole))
  }

  /** A turn keeps a conversation well formed. */
  lemma TurnPreservesWellFormed(history: seq<ChatMessage>, userMessage: string, response: string)
    requires WellFormed(history)
    ensures WellFormed(AfterTurn(history, userMessage, response))
  {
  }

  /** In a well formed conversation the preamble is the only system message,
      and every prompt built from it reaches the model whole: no entry of it is
      dropped from the request. */
  lemma WellFormedPromptReachesModel(history: seq<ChatMessage>, userMessage: string)
    requires WellFormed(history)
    ensures forall i :: 0 < i < |history| ==> history[i].role != SystemRole
    ensures ToHistory(RequestMessages(PromptFor(history, userMessage))) == PromptFor(history, userMessage)
  {
    assert UserRole[0] != SystemRole[0] && AssistantRole[0] != SystemRole[0];
    var start := if |history| == 0 then [SystemPreamble] else history;
    var prompt := start + [ChatMessage(UserRole, userMessage)];
    assert prompt == PromptFor(history, userMessage);
    forall i | 0 <= i < |prompt|
      ensures IsKnownRole(prompt[i].role)
    {
      if i < |start| {
        assert prompt[i] == start[i];
      }
    }
    RequestKeepsAllIffRolesKnown(prompt);
  }

  class ChatController {
    const chatService: ChatService
    /** The visitor's session, a map from key to stored text. */
    var session: map<string, string>

    constructor (chatService: ChatService, session: map<string, string>)
      ensures this.chatService == chatService
      ensures this.session == session
    {
      this.chatService := chatService;
      this.session := session;
    }

    /** Shows the conversation; changes nothing. */
    method Index() returns (history: Result<seq<ChatMessage>, string>)
      ensures history == LoadHistory(session)
    {
      history := GetChatHistory();
    }

    /** One turn. Blank input is declined. Otherwise the history is loaded
        (a malformed stored text throws, and nothing else happens), the
        preamble is added when it is empty, the user's message is appended,
        the completion service is called on the result, its reply is appended
        as the assistant's message and the history is stored. */
    method SendMessage(userMessage: string, complete: ChatCompletionsOptions -> RemoteOutcome)
      returns (r: Result<(), string>)
      modifies this, chatService`calls
      ensures IsNullOrWhiteSpace(userMessage) ==>
                r.Ok? && session == old(session) && chatService.calls == old(chatService.calls)
      ensures !IsNullOrWhiteSpace(userMessage) && LoadHistory(old(session)).Err? ==>
                r == Err(LoadHistory(old(session)).error)
                && session == old(session) && chatService.calls == old(chatService.calls)
      ensures !IsNullOrWhiteSpace(userMessage) && LoadHistory(old(session)).Ok? ==>
                var history := LoadHistory(old(session)).value;
                var prompt := PromptFor(history, userMessage);
                var response := FoldOutcome(complete(CompletionRequest(chatService.deploymentName, prompt)));
                && r.Ok?
                && chatService.calls == old(chatService.calls) + [prompt]
                && session == StoreHistory(old(session), AfterTurn(history, userMessage, response))
                && LoadHistory(session) == Ok(AfterTurn(history, userMessage, response))
      ensures LoadHistory(old(session)).Ok? && WellFormed(LoadHistory(old(session)).value) ==>
                LoadHistory(session).Ok? && WellFormed(LoadHistory(session).value)
    {
      if IsNullOrWhiteSpace(userMessage) {
        return Ok(());
      }
      var loaded := GetChatHistory();
      if loaded.Err? {
        return Err(loaded.error);
      }
      var history := loaded.value;
      if |history| == 0 {
        history := history + [SystemPreamble];
      }
      history := history + [ChatMessage(UserRole, userMessage)];
      var response := chatService.GetChatResponse(history, complete);
      if WellFormed(loaded.value) {
        TurnPreservesWellFormed(loaded.value, userMessage, response);
      }
      history := history + [ChatMessage(AssistantRole, response)];
      SaveChatHistory(history);
      r := Ok(());
    }

    /** Removes the conversation from the session. */
    method ClearChat()
      modifies this
      ensures session == old(session) - {ChatHistorySessionKey}
      ensures LoadHistory(session) == Ok([])
    {
      session := session - {ChatHistorySessionKey};
    }

    /** The conversation the session holds. */
    method GetChatHistory() returns (history: Result<seq<ChatMessage>, string>)
      ensures history == LoadHistory(session)
    {
      history := LoadHistory(session);
    }

    /** Stores the conversation in the session, replacing what was there. */
    method SaveChatHistory(history: seq<ChatMessage>)
      modifies this
      ensures session == StoreHistory(old(session), history)
      ensures LoadHistory(session) == Ok(history)
    {
      session := StoreHistory(session, history);
      StoreThenLoad(old(session), history);
    }
  }
}
