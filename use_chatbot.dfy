/**
 * The chat window's state container: the conversation so far, a loading
 * flag and the last error. The chat request's outcome is an input.
 */
module UseChatbot {
  import opened Wrappers
  import opened Text
  import opened ClientTypes

  datatype Role = User | Assistant

  /** A chat message as the window keeps it; its timestamp is not modelled. */
  datatype ChatMessage = ChatMessage(role: Role, content: string, intent: Option<string>)

  /** The server's reply; `action` is part of the reply the window does not keep. */
  datatype ChatResponse = ChatResponse(response: string, intent: string, action: Option<string>)

  const ChatFallback := "Failed to get response from chatbot"
  const Apology := "Sorry, I encountered an error. Please try again."

  datatype ChatState = ChatState(messages: seq<ChatMessage>, loading: bool, error: Option<string>)

  const Initial := ChatState([], false, None)

  /** `!userMessage.trim()`. */
  predicate Blank(userMessage: string) { TrimJs(userMessage) == [] }

  /** The assistant's message for an outcome: the reply and its intent, or the fixed apology. */
  function AssistantMessage(outcome: Result<ChatResponse, ApiError>): ChatMessage {
    match outcome
    case Success(resp) => ChatMessage(Assistant, resp.response, Some(resp.intent))
    case Failure(_) => ChatMessage(Assistant, Apology, None)
  }

  /** `sendMessage`: the returned reply and the new state. */
  function SendMessageSpec(st: ChatState, userMessage: string, outcome: Result<ChatResponse, ApiError>)
    : (r: (Option<ChatResponse>, ChatState))
    ensures r.0.Some? <==> !Blank(userMessage) && outcome.Success?
    ensures r.0.Some? ==> r.0.value == outcome.value
  {
    if Blank(userMessage) then (None, st)
    else
      var messages := st.messages + [ChatMessage(User, userMessage, None), AssistantMessage(outcome)];
      match outcome
      case Success(resp) => (Some(resp), ChatState(messages, false, None))
      case Failure(err) => (None, ChatState(messages, false, Some(DetailOr(err, ChatFallback))))
  }

  function ClearChatSpec(st: ChatState): (r: ChatState)
    ensures r.messages == [] && r.error.None? && r.loading == st.loading
  {
    st.(messages := [], error := None)
  }

  function ResetErrorSpec(st: ChatState): (r: ChatState)
    ensures r.error.None? && r.messages == st.messages && r.loading == st.loading
  {
    st.(error := None)
  }

  /** A blank message changes nothing and returns nothing. */
  lemma BlankMessageIgnored(st: ChatState, userMessage: string, outcome: Result<ChatResponse, ApiError>)
    requires AllJsSpace(userMessage)
    ensures SendMessageSpec(st, userMessage, outcome) == (None, st)
  {
  }

  /**
   * A non-blank send keeps the conversation so far and adds exactly two
   * messages: the user's, as typed (untrimmed), then the assistant's.
   */
  lemma SendAppendsTwo(st: ChatState, userMessage: string, outcome: Result<ChatResponse, ApiError>)
    requires !Blank(userMessage)
    ensures var m := SendMessageSpec(st, userMessage, outcome).1.messages;
            |m| == |st.messages| + 2 && m[..|st.messages|] == st.messages
            && m[|st.messages|] == ChatMessage(User, userMessage, None)
            && m[|st.messages| + 1].role == Assistant
  {
  }

  /** A failed send reports the detail or the fallback, appends the apology, and ends idle. */
  lemma FailedSendApologises(st: ChatState, userMessage: string, err: ApiError)
    requires !Blank(userMessage)
    ensures var r := SendMessageSpec(st, userMessage, Failure(err));
            r.0.None? && r.1.error == Some(DetailOr(err, ChatFallback)) && !r.1.loading
            && r.1.messages[|r.1.messages| - 1] == ChatMessage(Assistant, Apology, None)
  {
  }

  /** A successful send clears the error and the kept message holds no action, whatever the reply's action. */
  lemma SuccessDropsAction(st: ChatState, userMessage: string, text: string, intent: string, a1: Option<string>,
                           a2: Option<string>)
    requires !Blank(userMessage)
    ensures SendMessageSpec(st, userMessage, Success(ChatResponse(text, intent, a1))).1
            == SendMessageSpec(st, userMessage, Success(ChatResponse(text, intent, a2))).1
    ensures SendMessageSpec(st, userMessage, Success(ChatResponse(text, intent, a1))).1.error.None?
    ensures !SendMessageSpec(st, userMessage, Success(ChatResponse(text, intent, a1))).1.loading
  {
  }

  class Chatbot {
    var messages: seq<ChatMessage>
    var loading: bool
    var error: Option<string>

    function Snapshot(): ChatState
      reads this
    {
      ChatState(messages, loading, error)
    }

    constructor ()
      ensures Snapshot() == Initial
    {
      messages := [];
      loading := false;
      error := None;
    }

    method SendMessage(userMessage: string, outcome: Result<ChatResponse, ApiError>) returns (r: Option<ChatResponse>)
      modifies this
      ensures (r, Snapshot()) == SendMessageSpec(old(Snapshot()), userMessage, outcome)
    {
      if Blank(userMessage) {
        return None;
      }
      ghost var before := messages;
      messages := messages + [ChatMessage(User, userMessage, None)];
      loading := true;
      error := None;
      match outcome {
        case Success(resp) =>
          messages := messages + [ChatMessage(Assistant, resp.response, Some(resp.intent))];
          r := Some(resp);
        case Failure(err) =>
          error := Some(DetailOr(err, ChatFallback));
          messages := messages + [ChatMessage(Assistant, Apology, None)];
          r := None;
      }
      assert messages == before + [ChatMessage(User, userMessage, None), AssistantMessage(outcome)];
      loading := false;
    }

    method ClearChat()
      modifies this
      ensures Snapshot() == ClearChatSpec(old(Snapshot()))
    {
      messages := [];
      error := None;
    }

    method ResetError()
      modifies this
      ensures Snapshot() == ResetErrorSpec(old(Snapshot()))
    {
      error := None;
    }
  }
}
