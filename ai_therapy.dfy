/** The AI chat page: the message log shown behind a fixed greeting, the input
    box, and the send handler. The generative-text service is an oracle: each send
    is given the text it returned, or `None` when it failed. Backend calls are
    given as outcomes; each handler returns the requests and navigations it
    performs, in order. */
module AiTherapy {
  import opened Common

  datatype Role = UserRole | AssistantRole

  datatype Message = Message(role: Role, content: string)

  const GreetingText := "Hello! I'm Hermione, your AI therapeutic companion. I'm here to listen and support you. How are you feeling today?"
  const ApologyText := "I apologize, but I encountered an error. Please try again."

  /** The client-only first message; it is never saved. */
  const Greeting := Message(AssistantRole, GreetingText)

  /** The assistant message shown when any step of a send fails. */
  const Apology := Message(AssistantRole, ApologyText)

  const HistoryPath := "/api/v1/aitherapy/history"
  const MessagePath := "/api/v1/aitherapy/message"

  /** How many earlier messages the prompt quotes. */
  const ContextSize := 3

  /** `messages.slice(-3)`: the last three messages, or all of them when there
      are fewer. */
  function PromptContext(messages: seq<Message>): (r: seq<Message>)
    ensures |r| <= ContextSize
    ensures |messages| >= ContextSize ==> |r| == ContextSize
    ensures |messages| < ContextSize ==> r == messages
    ensures r == messages[|messages| - |r|..]
  {
    if |messages| <= ContextSize then messages else messages[|messages| - ContextSize..]
  }

  /** The messages shown after the history load: the greeting followed by the
      saved history when it is non-empty, otherwise what was shown before. */
  function Replayed(shown: seq<Message>, payload: Option<seq<Message>>): (r: seq<Message>)
    ensures payload.Some? && payload.value != [] ==>
              |r| == |payload.value| + 1 && r[0] == Greeting && r[1..] == payload.value
    ensures payload == None || payload == Some([]) ==> r == shown
  {
    if payload.Some? && payload.value != [] then [Greeting] + payload.value else shown
  }

  /** The one assistant message a send ends with: the generated reply when the
      user message was saved, the service answered and the reply was saved;
      the apology when any of the three failed. */
  function AssistantReply(userSaved: Outcome<()>, reply: Option<string>, replySaved: Outcome<()>): (m: Message)
    ensures m.role == AssistantRole
    ensures userSaved.Ok? && reply.Some? && replySaved.Ok? ==> m.content == reply.value
    ensures !(userSaved.Ok? && reply.Some? && replySaved.Ok?) ==> m == Apology
  {
    if userSaved.Ok? && reply.Some? && replySaved.Ok? then Message(AssistantRole, reply.value) else Apology
  }

  /** The body that saves one message: its role and its text. */
  function MessageBody(m: Message): Body {
    [("role", if m.role == UserRole then "user" else "assistant"), ("content", m.content)]
  }

  /** The requests a send issues after the user message is shown: the user
      message is saved; only if that succeeds and the service answers is the
      reply saved too. */
  function SendRequests(text: string, userSaved: Outcome<()>, reply: Option<string>): (r: seq<Effect>)
    ensures 1 <= |r| <= 2
    ensures r[0] == Request(POST, MessagePath, MessageBody(Message(UserRole, text)))
    ensures |r| == 2 <==> userSaved.Ok? && reply.Some?
    ensures |r| == 2 ==> r[1] == Request(POST, MessagePath, MessageBody(Message(AssistantRole, reply.value)))
  {
    [Request(POST, MessagePath, MessageBody(Message(UserRole, text)))]
    + (if userSaved.Ok? && reply.Some?
       then [Request(POST, MessagePath, MessageBody(Message(AssistantRole, reply.value)))] else [])
  }

  /** A send adds exactly two messages, the user's and then one assistant
      message; the reply and the apology never both appear. */
  lemma SendAddsOneExchange(shown: seq<Message>, text: string,
                            userSaved: Outcome<()>, reply: Option<string>, replySaved: Outcome<()>)
    ensures var after := shown + [Message(UserRole, text), AssistantReply(userSaved, reply, replySaved)];
            |after| == |shown| + 2 && after[..|shown|] == shown
            && after[|shown|].role == UserRole && after[|shown|].content == text
            && after[|shown| + 1].role == AssistantRole
            && (after[|shown| + 1] == Apology
                || (userSaved.Ok? && reply.Some? && replySaved.Ok? && after[|shown| + 1].content == reply.value))
  {
    var after := shown + [Message(UserRole, text), AssistantReply(userSaved, reply, replySaved)];
    assert after[..|shown|] == shown;
  }

  class ChatPage {
    var messages: seq<Message>
    var newMessage: string
    var loading: bool
    var currentUser: Option<User>
    var error: Option<string>
    var chatHistory: seq<Message>

    constructor ()
      ensures messages == [Greeting] && newMessage == "" && !loading
      ensures currentUser == None && error == None && chatHistory == []
    {
      messages, newMessage, loading := [Greeting], "", false;
      currentUser, error, chatHistory := None, None, [];
    }

    /** The input's `onChange`. */
    method SetNewMessage(text: string)
      modifies this`newMessage
      ensures newMessage == text
    {
      newMessage := text;
    }

    /** The session probe. Unlike the other pages it gates nothing: the history
        load runs on its own. */
    method CheckAuthAndLoadData(probe: Outcome<Option<User>>) returns (effects: seq<Effect>)
      modifies this`currentUser, this`error, this`loading
      ensures !loading
      ensures currentUser == if probe.Ok? && probe.value.Some? then probe.value else old(currentUser)
      ensures effects == [ProbeRequest]
                         + (if probe.OtherError? || (probe.Ok? && probe.value.Some?) then [] else [Navigate(LoginRoute)])
      ensures error == if probe.OtherError? then Some("Failed to load content") else old(error)
    {
      effects := [ProbeRequest];
      match probe {
        case Ok(payload) =>
          if payload.Some? {
            currentUser := payload;
          } else {
            effects := effects + [Navigate(LoginRoute)];
          }
        case Unauthorized(_) =>
          effects := effects + [Navigate(LoginRoute)];
        case OtherError(_) =>
          error := Some("Failed to load content");
      }
      loading := false;
    }

    /** `fetchChatHistory`: a non-empty history is shown behind the greeting;
        an empty one, or a failure, leaves the log alone; a 401 navigates to the
        login page. */
    method FetchChatHistory(fetched: Outcome<Option<seq<Message>>>) returns (effects: seq<Effect>)
      modifies this`messages, this`chatHistory
      ensures effects == [Request(GET, HistoryPath, [])] + (if fetched.Unauthorized? then [Navigate(LoginRoute)] else [])
      ensures messages == if fetched.Ok? then Replayed(old(messages), fetched.value) else old(messages)
      ensures chatHistory == if fetched.Ok? && fetched.value.Some? && fetched.value.value != []
                             then fetched.value.value else old(chatHistory)
    {
      effects := [Request(GET, HistoryPath, [])];
      match fetched
      case Ok(payload) =>
        if payload.Some? && payload.value != [] {
          chatHistory := payload.value;
          messages := [Greeting] + payload.value;
        }
      case Unauthorized(_) =>
        effects := effects + [Navigate(LoginRoute)];
      case OtherError(_) =>
    }

    /** The part of `handleSendMessage` that runs before anything is awaited:
        a blank input, or a send already under way, changes nothing; otherwise
        the user message is shown at once and the input cleared. It returns the
        text sent and the earlier messages the prompt quotes, which do not yet
        include the new one. */
    method BeginSend() returns (started: bool, sent: string, context: seq<Message>)
      modifies this`messages, this`newMessage, this`loading
      ensures started <==> !IsBlank(old(newMessage)) && !old(loading)
      ensures !started ==>
                messages == old(messages) && newMessage == old(newMessage) && loading == old(loading)
      ensures started ==>
                loading && newMessage == "" && sent == old(newMessage)
                && messages == old(messages) + [Message(UserRole, sent)]
                && context == PromptContext(old(messages))
    {
      if IsBlank(newMessage) || loading {
        return false, "", [];
      }
      loading := true;
      context := PromptContext(messages);
      sent := newMessage;
      messages := messages + [Message(UserRole, sent)];
      newMessage := "";
      started := true;
    }

    /** The rest of `handleSendMessage`: exactly one assistant message is
        appended and `loading` is cleared, on every path. */
    method CompleteSend(sent: string, userSaved: Outcome<()>, reply: Option<string>, replySaved: Outcome<()>)
      returns (effects: seq<Effect>)
      modifies this`messages, this`loading
      ensures !loading
      ensures messages == old(messages) + [AssistantReply(userSaved, reply, replySaved)]
      ensures effects == SendRequests(sent, userSaved, reply)
    {
      effects := [Request(POST, MessagePath, MessageBody(Message(UserRole, sent)))];
      if userSaved.Ok? && reply.Some? {
        effects := effects + [Request(POST, MessagePath, MessageBody(Message(AssistantRole, reply.value)))];
      }
      if userSaved.Ok? && reply.Some? && replySaved.Ok? {
        messages := messages + [Message(AssistantRole, reply.value)];
      } else {
        messages := messages + [Apology];
      }
      loading := false;
    }

    /** `handleSendMessage` from start to end. */
    method HandleSendMessage(userSaved: Outcome<()>, reply: Option<string>, replySaved: Outcome<()>)
      returns (effects: seq<Effect>)
      modifies this`messages, this`newMessage, this`loading
      ensures IsBlank(old(newMessage)) || old(loading) ==>
                effects == [] && messages == old(messages)
                && newMessage == old(newMessage) && loading == old(loading)
      ensures !IsBlank(old(newMessage)) && !old(loading) ==>
                !loading && newMessage == ""
                && messages == old(messages) + [Message(UserRole, old(newMessage)),
                                                AssistantReply(userSaved, reply, replySaved)]
                && effects == SendRequests(old(newMessage), userSaved, reply)
    {
      ghost var before, text, busy := messages, newMessage, loading;
      var started, sent, context := BeginSend();
      if !started {
        assert IsBlank(text) || busy;
        return [];
      }
      assert !IsBlank(text) && !busy && sent == text;
      assert messages == before + [Message(UserRole, sent)];
      effects := CompleteSend(sent, userSaved, reply, replySaved);
      ghost var answer := AssistantReply(userSaved, reply, replySaved);
      assert before + [Message(UserRole, sent)] + [answer] == before + [Message(UserRole, sent), answer];
    }
  }
}
