/**
 * The earlier, non-streaming chat page (frontend/src/pages/ProjectChat.jsx):
 * the sessions of a project, the selected session, its messages, the input
 * box and the `loading`, `sending` and `error` state, changed by the page's
 * event handlers. Only the state logic is modelled, not the rendering.
 *
 * Each handler that awaits a request is split at the await into the part
 * that runs before it (`Begin...`) and the part that runs when the request
 * settles (`Finish...`); the whole handler is the two in sequence.
 */
module ProjectChatPage {
  import opened Wrappers
  import opened Text
  import opened ChatModels
  import opened SessionHook

  const SendErrorText := "Error sending message."

  /** The body of the page's `POST /sessions/`. */
  datatype NewSessionRequest = NewSessionRequest(projectId: string, title: string)

  /** The body of `POST /sessions/{id}/chat`. */
  datatype ChatPost = ChatPost(sessionId: string, message: string)

  /** The message a settled chat request appends: the reply, or the error message. */
  function ReplyMessage(reply: Option<string>): (m: Message)
    ensures m.role == Assistant <==> reply.Some?
    ensures reply.Some? ==> m.content == reply.value
    ensures reply.None? ==> m == Message(System, SendErrorText)
  {
    match reply
    case Some(text) => Message(Assistant, text)
    case None => Message(System, SendErrorText)
  }

  /** True when `handleSendMessage` goes ahead: some input, a selected session, no send under way. */
  predicate AcceptsSend(input: string, current: Option<Session>, sending: bool) {
    !IsBlank(input) && current.Some? && !sending
  }

  class ChatPage {
    const projectId: string
    var sessions: seq<Session>
    var currentSession: Option<Session>
    var messages: seq<Message>
    var input: string
    var loading: bool
    var sending: bool
    var error: Option<string>

    constructor (projectId: string)
      ensures this.projectId == projectId
      ensures sessions == [] && currentSession == None && messages == [] && input == ""
      ensures !loading && !sending && error == None
    {
      this.projectId := projectId;
      sessions, currentSession, messages, input := [], None, [], "";
      loading, sending, error := false, false, None;
    }

    /** `setInput`: the text box changes. */
    method SetInput(text: string)
      modifies this`input
      ensures input == text
    {
      input := text;
    }

    /** `fetchSessions`: replace the list with the server's, or record the error text. */
    method FetchSessions(reply: Result<seq<Session>, ApiError>)
      modifies this`sessions, this`loading, this`error
      ensures reply.Ok? ==> sessions == reply.value && error == None
      ensures reply.Err? ==> sessions == old(sessions) && error == Some(ErrorText(reply.error, FetchFallback))
      ensures !loading
    {
      loading := true;
      error := None;
      match reply {
        case Ok(list) => sessions := list;
        case Err(e) => error := Some(ErrorText(e, FetchFallback));
      }
      loading := false;
    }

    /** `handleSelectSession` up to its await: the session becomes current and the old messages are cleared. */
    method BeginSelectSession(session: Session)
      modifies this`currentSession, this`messages, this`loading
      ensures currentSession == Some(session) && messages == [] && loading
    {
      currentSession := Some(session);
      messages := [];
      loading := true;
    }

    /** `handleSelectSession` after its await: the history replaces the messages; a failure leaves them. */
    method FinishSelectSession(history: Option<seq<Message>>)
      modifies this`messages, this`loading
      ensures messages == if history.Some? then history.value else old(messages)
      ensures !loading
    {
      if history.Some? {
        messages := history.value;
      }
      loading := false;
    }

    /** `handleSelectSession`: the session is current and its messages are the history, or empty on failure. */
    method SelectSession(session: Session, history: Option<seq<Message>>)
      modifies this`currentSession, this`messages, this`loading
      ensures currentSession == Some(session)
      ensures messages == if history.Some? then history.value else []
      ensures !loading
    {
      BeginSelectSession(session);
      FinishSelectSession(history);
    }

    /**
     * `handleCreateSession`: creates a "New Conversation", prepends it and
     * selects it (loading its history); a failure records the error text.
     */
    method CreateSession(reply: Result<Session, ApiError>, history: Option<seq<Message>>)
      returns (request: NewSessionRequest)
      modifies this`sessions, this`currentSession, this`messages, this`loading, this`error
      ensures request == NewSessionRequest(projectId, UntitledSession)
      ensures reply.Ok? ==>
        sessions == [reply.value] + old(sessions) && error == None
        && currentSession == Some(reply.value)
        && messages == (if history.Some? then history.value else [])
      ensures reply.Err? ==>
        sessions == old(sessions) && currentSession == old(currentSession) && messages == old(messages)
        && error == Some(ErrorText(reply.error, CreateFallback))
      ensures !loading
    {
      loading := true;
      error := None;
      request := NewSessionRequest(projectId, UntitledSession);
      match reply {
        case Ok(created) =>
          sessions := [created] + sessions;
          SelectSession(created, history);
        case Err(e) =>
          error := Some(ErrorText(e, CreateFallback));
      }
      loading := false;
    }

    /**
     * `handleDeleteSession`: nothing happens unless the user confirms. After a
     * successful DELETE every session with the id is removed and, if it was the
     * current one, the selection and the messages are cleared. A failed DELETE
     * changes nothing.
     */
    method DeleteSession(id: string, confirmed: bool, reply: Option<ApiError>)
      modifies this`sessions, this`currentSession, this`messages
      ensures !confirmed || reply.Some? ==>
        sessions == old(sessions) && currentSession == old(currentSession) && messages == old(messages)
      ensures confirmed && reply.None? ==>
        sessions == WithoutId(old(sessions), id)
        && (IsCurrent(old(currentSession), id) ==> currentSession == None && messages == [])
        && (!IsCurrent(old(currentSession), id) ==>
              currentSession == old(currentSession) && messages == old(messages))
    {
      if !confirmed {
        return;
      }
      if reply.None? {
        sessions := WithoutId(sessions, id);
        if IsCurrent(currentSession, id) {
          currentSession := None;
          messages := [];
        }
      }
    }

    /**
     * `handleSendMessage` up to its await: unless the guard rejects the send,
     * the input becomes a user message, the input is cleared and `sending` is set.
     */
    method BeginSend() returns (request: Option<ChatPost>)
      modifies this`messages, this`input, this`sending
      ensures !AcceptsSend(old(input), currentSession, old(sending)) ==>
        request == None && messages == old(messages) && input == old(input) && sending == old(sending)
      ensures AcceptsSend(old(input), currentSession, old(sending)) ==>
        request == Some(ChatPost(currentSession.value.id, old(input)))
        && messages == old(messages) + [Message(User, old(input))]
        && input == "" && sending
    {
      if !AcceptsSend(input, currentSession, sending) {
        return None;
      }
      request := Some(ChatPost(currentSession.value.id, input));
      messages := messages + [Message(User, input)];
      input := "";
      sending := true;
    }

    /** `handleSendMessage` after its await: one reply message, then `sending` is cleared. */
    method FinishSend(reply: Option<string>)
      modifies this`messages, this`sending
      ensures messages == old(messages) + [ReplyMessage(reply)]
      ensures !sending
    {
      messages := messages + [ReplyMessage(reply)];
      sending := false;
    }

    /** `handleSendMessage`: a rejected send changes nothing; an accepted one appends exactly two messages. */
    method SendMessage(reply: Option<string>) returns (request: Option<ChatPost>)
      modifies this`messages, this`input, this`sending
      ensures !AcceptsSend(old(input), currentSession, old(sending)) ==>
        request == None && messages == old(messages) && input == old(input) && sending == old(sending)
      ensures AcceptsSend(old(input), currentSession, old(sending)) ==>
        request == Some(ChatPost(currentSession.value.id, old(input)))
        && messages == old(messages) + [Message(User, old(input)), ReplyMessage(reply)]
        && input == "" && !sending
    {
      request := BeginSend();
      if request.Some? {
        FinishSend(reply);
      }
    }
  }
}
