/**
 * The assistant panel: its conversation state and `handleChatSubmit`.
 * Message ids (`nanoid`) and the reply of the chatbot flow are parameters;
 * calls to the `handleNavigation` prop are recorded in order.
 */
module Chatbot {
  import opened Wrappers
  import opened JsText

  datatype Role = User | Bot

  datatype ChatMessage = ChatMessage(id: string, role: Role, text: string)

  const GreetingText := "Hello! I can help with medical emergencies, missing persons reports, and venue directions. How can I assist you?"
  const ApologyText := "Sorry, I'm having trouble connecting. Please try again later."

  datatype Category = MedicalEmergency | MissingPersonQuery | MapDirections | DefaultCategory

  datatype ChatAction = NavigateToEmergencyForm | NavigateToMissingPersonForm | ShowUserMap

  /** The output schema of the chatbot flow; `action` is nullable. */
  datatype ChatbotOutput = ChatbotOutput(category: Category, response: string, action: Option<ChatAction>)

  /** The argument passed to the chatbot flow. */
  datatype ChatRequest = ChatRequest(query: string, history: seq<ChatMessage>)

  /** How the awaited flow call ends: with an output, or by throwing. */
  datatype ChatReply = Answered(output: ChatbotOutput) | CallFailed

  /** One call `handleNavigation(action, tab?)`. */
  datatype NavCall = NavCall(action: string, tab: Option<string>)

  /** The `switch (result.action)` table: the navigation call made for each action. */
  function NavigationFor(action: Option<ChatAction>): (r: Option<NavCall>)
    ensures r.None? <==> action.None?
    ensures r.Some? && r.value.tab.Some? ==> r.value.action == "user/dashboard"
  {
    match action
    case None => None
    case Some(NavigateToEmergencyForm) => Some(NavCall("user/dashboard", Some("medical")))
    case Some(NavigateToMissingPersonForm) => Some(NavCall("user/dashboard", Some("missing")))
    case Some(ShowUserMap) => Some(NavCall("SHOW_USER_MAP", None))
  }

  /** The bot message appended once the call has ended. */
  function BotMessage(id: string, reply: ChatReply): (m: ChatMessage)
    ensures m.role == Bot && m.id == id
    ensures reply.Answered? ==> m.text == reply.output.response
    ensures reply.CallFailed? ==> m.text == ApologyText
  {
    match reply
    case Answered(output) => ChatMessage(id, Bot, output.response)
    case CallFailed => ChatMessage(id, Bot, ApologyText)
  }

  /** The navigation calls made after the reply: none on failure or for a null action. */
  function NavigationCalls(reply: ChatReply): (calls: seq<NavCall>)
    ensures |calls| <= 1
    ensures reply.CallFailed? ==> calls == []
    ensures reply.Answered? ==> (calls == [] <==> reply.output.action.None?)
  {
    if reply.Answered? && reply.output.action.Some? then [NavigationFor(reply.output.action).value] else []
  }

  /** `!input.trim()`: JavaScript treats a string of white space only like the empty string. */
  predicate IgnoredInput(input: string)
    ensures IgnoredInput(input) <==> IsBlank(input)
  {
    TrimEmptyIffBlank(input);
    Trim(input) == ""
  }

  /** The state of one `Chatbot` component. */
  class ChatbotPanel {
    var messages: seq<ChatMessage>
    var input: string
    var loading: bool
    /** The calls made so far to the `handleNavigation` prop. */
    var navigations: seq<NavCall>

    constructor ()
      ensures messages == [] && input == "" && !loading && navigations == []
    {
      messages := [];
      input := "";
      loading := false;
      navigations := [];
    }

    /** The mount effect: the list becomes exactly one greeting from the bot. */
    method Mount(greetingId: string)
      modifies this
      ensures messages == [ChatMessage(greetingId, Bot, GreetingText)]
      ensures input == old(input) && loading == old(loading) && navigations == old(navigations)
    {
      messages := [ChatMessage(greetingId, Bot, GreetingText)];
    }

    /** Typing `text` into the input, whose `onChange` sets it. The input is
        `disabled` while a reply is pending, so typing then changes nothing. */
    method SetInput(text: string)
      modifies this
      ensures input == if old(loading) then old(input) else text
      ensures messages == old(messages) && loading == old(loading) && navigations == old(navigations)
    {
      if !loading {
        input := text;
      }
    }

    /** `handleChatSubmit` up to the awaited call. A blank input, or a submit
        while a reply is pending, changes nothing and sends nothing. Otherwise
        the user's message is appended, the input cleared, loading set, and the
        request sent carries the history as it was before the new message. */
    method BeginSubmit(userMessageId: string) returns (request: Option<ChatRequest>)
      modifies this
      ensures request.None? <==> IsBlank(old(input)) || old(loading)
      ensures request.None? ==>
        messages == old(messages) && input == old(input) && loading == old(loading)
      ensures request.Some? ==>
        && request.value == ChatRequest(old(input), old(messages))
        && messages == old(messages) + [ChatMessage(userMessageId, User, old(input))]
        && input == "" && loading
      ensures navigations == old(navigations)
    {
      if IgnoredInput(input) || loading {
        return None;
      }
      var userMessage := ChatMessage(userMessageId, User, input);
      var newMessages := messages + [userMessage];
      request := Some(ChatRequest(input, messages));
      messages := newMessages;
      input := "";
      loading := true;
    }

    /** `handleChatSubmit` after the awaited call: the bot's answer (or the
        apology) is appended, the action's navigation call is made, and loading
        ends whichever way the call went. */
    method FinishSubmit(botMessageId: string, reply: ChatReply)
      modifies this
      ensures messages == old(messages) + [BotMessage(botMessageId, reply)]
      ensures navigations == old(navigations) + NavigationCalls(reply)
      ensures !loading && input == old(input)
    {
      match reply {
        case Answered(output) =>
          messages := messages + [ChatMessage(botMessageId, Bot, output.response)];
          var nav := NavigationFor(output.action);
          if nav.Some? {
            navigations := navigations + [nav.value];
          }
        case CallFailed =>
          messages := messages + [ChatMessage(botMessageId, Bot, ApologyText)];
      }
      loading := false;
    }

    /** The whole `handleChatSubmit`, with `reply` the outcome of the call.
        Existing messages are never changed: the list only grows. */
    method HandleChatSubmit(userMessageId: string, botMessageId: string, reply: ChatReply)
      returns (request: Option<ChatRequest>)
      modifies this
      ensures request.None? <==> IsBlank(old(input)) || old(loading)
      ensures request.None? ==>
        messages == old(messages) && input == old(input) && loading == old(loading) && navigations == old(navigations)
      ensures request.Some? ==>
        && request.value == ChatRequest(old(input), old(messages))
        && messages == old(messages) + [ChatMessage(userMessageId, User, old(input)), BotMessage(botMessageId, reply)]
        && navigations == old(navigations) + NavigationCalls(reply)
        && input == "" && !loading
      ensures |messages| >= |old(messages)| && messages[..|old(messages)|] == old(messages)
    {
      request := BeginSubmit(userMessageId);
      if request.Some? {
        FinishSubmit(botMessageId, reply);
      }
    }
  }
}
