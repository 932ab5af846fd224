/** The completion service: configuration validation, the translation of a
    conversation into a chat-completions request, and the folding of the
    remote call's outcome into the text the caller shows as the assistant's
    reply. */
module Services {
  import opened Wrappers

  /** One entry of a conversation as the session stores it. The role is a
      free-form tag; only three exact spellings mean something to the
      service. */
  datatype ChatMessage = ChatMessage(role: string, content: string)

  const SystemRole := "system"
  const UserRole := "user"
  const AssistantRole := "assistant"

  /** The role tags the request builder recognises (compared exactly, so
      "System" and "" are not among them). */
  predicate IsKnownRole(role: string) {
    role == SystemRole || role == UserRole || role == AssistantRole
  }

  /** A role-specific message of the outbound request. */
  datatype ChatRequestMessage =
    | ChatRequestSystemMessage(content: string)
    | ChatRequestUserMessage(content: string)
    | ChatRequestAssistantMessage(content: string)
  {
    /** The role tag this variant stands for. */
    function Role(): string {
      match this
      case ChatRequestSystemMessage(_) => SystemRole
      case ChatRequestUserMessage(_) => UserRole
      case ChatRequestAssistantMessage(_) => AssistantRole
    }
  }

  /** The request sent to the remote model: the model name and the messages. */
  datatype ChatCompletionsOptions = ChatCompletionsOptions(model: string, messages: seq<ChatRequestMessage>)

  /** What the remote call produces: the generated text, or an exception
      described by its message. The network call itself is a parameter of
      the operations below. */
  datatype RemoteOutcome = Success(content: string) | Failure(cause: string)

  const EndpointSetting := "AzureAI:Endpoint"
  const ApiKeySetting := "AzureAI:ApiKey"
  const DeploymentNameSetting := "AzureAI:DeploymentName"
  const DefaultDeploymentName := "Phi-4"
  const EndpointMissing := "AzureAI:Endpoint is not configured."
  const ApiKeyMissing := "AzureAI:ApiKey is not configured."
  const ErrorPrefix := "Error: Unable to get a response from the AI model. "

  /** The three settings a constructed service holds. */
  datatype Settings = Settings(endpoint: string, apiKey: string, deploymentName: string)

  /** Reads the settings from the configuration, a map from setting name to
      value in which an absent setting has no key. A present but empty value
      is accepted: only absence is rejected. The endpoint is checked first. */
  function ReadSettings(configuration: map<string, string>): (r: Result<Settings, string>)
    ensures r.Err? <==> EndpointSetting !in configuration || ApiKeySetting !in configuration
    ensures EndpointSetting !in configuration ==> r == Err(EndpointMissing)
    ensures EndpointSetting in configuration && ApiKeySetting !in configuration ==> r == Err(ApiKeyMissing)
    ensures r.Ok? ==> r.value.endpoint == configuration[EndpointSetting]
    ensures r.Ok? ==> r.value.apiKey == configuration[ApiKeySetting]
    ensures r.Ok? && DeploymentNameSetting in configuration ==> r.value.deploymentName == configuration[DeploymentNameSetting]
    ensures r.Ok? && DeploymentNameSetting !in configuration ==> r.value.deploymentName == DefaultDeploymentName
  {
    if EndpointSetting !in configuration then Err(EndpointMissing)
    else if ApiKeySetting !in configuration then Err(ApiKeyMissing)
    else
      var deploymentName :=
        if DeploymentNameSetting in configuration then configuration[DeploymentNameSetting] else DefaultDeploymentName;
      Ok(Settings(configuration[EndpointSetting], configuration[ApiKeySetting], deploymentName))
  }

  /** The request message for one history entry, or None when its role is
      not one of the three recognised tags. */
  function ToRequestMessage(message: ChatMessage): (r: Option<ChatRequestMessage>)
    ensures r.Some? <==> IsKnownRole(message.role)
    ensures r.Some? ==> r.value.Role() == message.role && r.value.content == message.content
  {
    if message.role == SystemRole then Some(ChatRequestSystemMessage(message.content))
    else if message.role == UserRole then Some(ChatRequestUserMessage(message.content))
    else if message.role == AssistantRole then Some(ChatRequestAssistantMessage(message.content))
    else None
  }

  /** The history entry a request message stands for. */
  function FromRequestMessage(r: ChatRequestMessage): ChatMessage {
    ChatMessage(r.Role(), r.content)
  }

  /** Every request message is the translation of the entry it stands for. */
  lemma RequestMessageRoundTrip(r: ChatRequestMessage)
    ensures ToRequestMessage(FromRequestMessage(r)) == Some(r)
  {
  }

  /** The request messages for a whole history, built entry by entry from the
      front, as the request builder's loop does. */
  function RequestMessages(history: seq<ChatMessage>): (r: seq<ChatRequestMessage>)
    ensures |r| <= |history|
  {
    if |history| == 0 then []
    else RequestMessages(history[..|history| - 1]) + OptionToSeq(ToRequestMessage(history[|history| - 1]))
  }

  /** Reference definition: the history with every entry of an unrecognised
      role removed, the others kept in order and unchanged. */
  function KeptHistory(history: seq<ChatMessage>): seq<ChatMessage> {
    if |history| == 0 then []
    else (if IsKnownRole(history[0].role) then [history[0]] else []) + KeptHistory(history[1..])
  }

  /** The history entries a sequence of request messages stands for. */
  function ToHistory(rs: seq<ChatRequestMessage>): (h: seq<ChatMessage>)
    ensures |h| == |rs|
    ensures forall i :: 0 <= i < |rs| ==> h[i] == FromRequestMessage(rs[i])
  {
    seq(|rs|, i requires 0 <= i < |rs| => FromRequestMessage(rs[i]))
  }

  /** The request for a history under a given model name. */
  function CompletionRequest(model: string, history: seq<ChatMessage>): ChatCompletionsOptions {
    ChatCompletionsOptions(model, RequestMessages(history))
  }

  /** The text the service returns for an outcome of the remote call: the
      generated text unchanged, or the fixed error prefix followed by the
      cause. */
  function FoldOutcome(outcome: RemoteOutcome): (text: string)
    ensures outcome.Success? ==> text == outcome.content
    ensures outcome.Failure? ==> ErrorPrefix <= text && text[|ErrorPrefix|..] == outcome.cause
  {
    match outcome
    case Success(content) => content
    case Failure(cause) => ErrorPrefix + cause
  }

  /** A generated text that happens to begin with the error prefix reads the
      same as a failure: the caller cannot tell the two apart. */
  lemma FailureIndistinguishable(cause: string)
    ensures FoldOutcome(Success(ErrorPrefix + cause)) == FoldOutcome(Failure(cause))
  {
  }

  lemma {:induction false} KeptHistoryAppend(a: seq<ChatMessage>, b: seq<ChatMessage>)
    ensures KeptHistory(a + b) == KeptHistory(a) + KeptHistory(b)
  {
    if |a| > 0 {
      assert (a + b)[1..] == a[1..] + b;
      KeptHistoryAppend(a[1..], b);
    } else {
      assert a + b == b;
    }
  }

  lemma {:induction false} KeptHistoryOfKnown(history: seq<ChatMessage>)
    requires forall i :: 0 <= i < |history| ==> IsKnownRole(history[i].role)
    ensures KeptHistory(history) == history
  {
    if |history| > 0 {
      KeptHistoryOfKnown(history[1..]);
    }
  }

  lemma {:induction false} KeptHistoryShorter(history: seq<ChatMessage>, j: nat)
    requires j < |history| && !IsKnownRole(history[j].role)
    ensures |KeptHistory(history)| < |history|
  {
    KeptHistoryNoLonger(history[1..]);
    if j > 0 {
      KeptHistoryShorter(history[1..], j - 1);
    }
  }

  lemma {:induction false} KeptHistoryNoLonger(history: seq<ChatMessage>)
    ensures |KeptHistory(history)| <= |history|
  {
    if |history| > 0 {
      KeptHistoryNoLonger(history[1..]);
    }
  }

  /** The request messages are exactly the recognised entries of the history,
      one per entry, in their original order, each with its own role and
      content. */
  lemma {:induction false} RequestMessagesAreKeptHistory(history: seq<ChatMessage>)
    ensures ToHistory(RequestMessages(history)) == KeptHistory(history)
  {
    if |history| > 0 {
      var front, last := history[..|history| - 1], history[|history| - 1];
      assert history == front + [last];
      RequestMessagesAreKeptHistory(front);
      KeptHistoryAppend(front, [last]);
      assert [last][1..] == [];
      var t := OptionToSeq(ToRequestMessage(last));
      assert ToHistory(RequestMessages(front) + t) == ToHistory(RequestMessages(front)) + ToHistory(t);
      if IsKnownRole(last.role) {
        RequestMessageRoundTrip(ToRequestMessage(last).value);
      }
    }
  }

  /** Building the request commutes with splitting the history: order is
      preserved across any split point. */
  lemma {:induction false} RequestMessagesAppend(a: seq<ChatMessage>, b: seq<ChatMessage>)
    ensures RequestMessages(a + b) == RequestMessages(a) + RequestMessages(b)
  {
    if |b| > 0 {
      var front, last := b[..|b| - 1], b[|b| - 1];
      assert b == front + [last];
      assert (a + b)[..|a + b| - 1] == a + front;
      RequestMessagesAppend(a, front);
    } else {
      assert a + b == a;
    }
  }

  /** An entry with an unrecognised role is dropped without a trace: the
      request is the one built from the history without it. */
  lemma {:induction false} UnknownRoleDropped(before: seq<ChatMessage>, message: ChatMessage, after: seq<ChatMessage>)
    requires !IsKnownRole(message.role)
    ensures RequestMessages(before + [message] + after) == RequestMessages(before + after)
  {
    var withIt := before + [message];
    assert withIt[..|withIt| - 1] == before;
    assert RequestMessages(withIt) == RequestMessages(before);
    RequestMessagesAppend(withIt, after);
    RequestMessagesAppend(before, after);
  }

  /** Nothing is dropped exactly when every role is recognised, and then the
      request stands for the whole history unchanged. */
  lemma {:induction false} RequestKeepsAllIffRolesKnown(history: seq<ChatMessage>)
    ensures |RequestMessages(history)| == |history| <==>
            forall i :: 0 <= i < |history| ==> IsKnownRole(history[i].role)
    ensures (forall i :: 0 <= i < |history| ==> IsKnownRole(history[i].role)) ==>
            ToHistory(RequestMessages(history)) == history
  {
    RequestMessagesAreKeptHistory(history);
    if forall i :: 0 <= i < |history| ==> IsKnownRole(history[i].role) {
      KeptHistoryOfKnown(history);
    } else {
      var j :| 0 <= j < |history| && !IsKnownRole(history[j].role);
      KeptHistoryShorter(history, j);
    }
  }

  class ChatService {
    const endpoint: string
    const apiKey: string
    const deploymentName: string
    /** Every history this service has been asked to answer, in call order. */
    ghost var calls: seq<seq<ChatMessage>>

    constructor (settings: Settings)
      ensures endpoint == settings.endpoint
      ensures apiKey == settings.apiKey
      ensures deploymentName == settings.deploymentName
      ensures calls == []
    {
      endpoint := settings.endpoint;
      apiKey := settings.apiKey;
      deploymentName := settings.deploymentName;
      calls := [];
    }

    /** Construction from a configuration, which throws when the endpoint or
        the API key is absent. */
    static method Create(configuration: map<string, string>) returns (r: Result<ChatService, string>)
      ensures r.Err? <==> ReadSettings(configuration).Err?
      ensures r.Err? ==> r.error == ReadSettings(configuration).error
      ensures r.Ok? ==> fresh(r.value) && r.value.calls == []
      ensures r.Ok? ==> r.value.endpoint == configuration[EndpointSetting]
      ensures r.Ok? ==> r.value.apiKey == configuration[ApiKeySetting]
      ensures r.Ok? ==> r.value.deploymentName == ReadSettings(configuration).value.deploymentName
    {
      var settings := ReadSettings(configuration);
      if settings.Err? {
        return Err(settings.error);
      }
      var service := new ChatService(settings.value);
      r := Ok(service);
    }

    /** Builds the request for the history, makes the remote call `complete`
        and returns its text, or the error text when it fails. */
    method GetChatResponse(conversationHistory: seq<ChatMessage>, complete: ChatCompletionsOptions -> RemoteOutcome)
      returns (response: string)
      modifies this`calls
      ensures calls == old(calls) + [conversationHistory]
      ensures response == FoldOutcome(complete(CompletionRequest(deploymentName, conversationHistory)))
    {
      calls := calls + [conversationHistory];
      var messages: seq<ChatRequestMessage> := [];
      for i := 0 to |conversationHistory|
        invariant messages == RequestMessages(conversationHistory[..i])
      {
        var message := conversationHistory[i];
        assert conversationHistory[..i + 1][..i] == conversationHistory[..i];
        if message.role == SystemRole {
          messages := messages + [ChatRequestSystemMessage(message.content)];
        } else if message.role == UserRole {
          messages := messages + [ChatRequestUserMessage(message.content)];
        } else if message.role == AssistantRole {
          messages := messages + [ChatRequestAssistantMessage(message.content)];
        }
      }
      assert conversationHistory[..|conversationHistory|] == conversationHistory;
      var requestOptions := ChatCompletionsOptions(deploymentName, messages);
      var outcome := complete(requestOptions);
      match outcome
      case Success(content) =>
        response := content;
      case Failure(cause) =>
        response := ErrorPrefix + cause;
    }
  }
}
