/**
 * The session list hook of the frontend (frontend/src/hooks/useSession.js):
 * the sessions of one project, the selected session, a loading flag and an
 * error text. The HTTP client's answers are parameters: `Ok(value)` for a
 * resolved request, `Err(error)` for a rejected one.
 */
module SessionHook {
  import opened Wrappers
  import opened Text

  /** A chat session as the backend returns it. */
  datatype Session = Session(id: string, title: string, chatModel: string, createdAt: string)

  /** A rejected request: the `detail` field of the error response body, if there is one. */
  datatype ApiError = ApiError(detail: Option<string>)

  /** The body of `POST /sessions/`. */
  datatype CreateRequest = CreateRequest(projectId: string, title: string, chatModel: string)

  const FetchFallback := "Failed to fetch chat sessions"
  const CreateFallback := "Failed to create new chat"
  const DeleteFallback := "Failed to delete chat"
  const RenameFallback := "Failed to rename chat"
  const UntitledSession := "New Conversation"

  /** `err.response?.data?.detail || fallback`: the server's detail unless it is missing or empty. */
  function ErrorText(e: ApiError, fallback: string): (t: string)
    ensures e.detail.Some? && e.detail.value != "" ==> t == e.detail.value
    ensures e.detail.None? || e.detail.value == "" ==> t == fallback
  {
    if e.detail.Some? && e.detail.value != "" then e.detail.value else fallback
  }

  /** `title || 'New Conversation'`: a missing or empty title is replaced. */
  function RequestTitle(title: Option<string>): (t: string)
    ensures t != ""
    ensures title.Some? && title.value != "" ==> t == title.value
    ensures title.None? || title.value == "" ==> t == UntitledSession
  {
    if title.Some? && title.value != "" then title.value else UntitledSession
  }

  /** `sessions.filter(s => s.id !== id)`. */
  function WithoutId(sessions: seq<Session>, id: string): (r: seq<Session>)
    ensures |r| <= |sessions|
    ensures forall i :: 0 <= i < |r| ==> r[i].id != id
  {
    if sessions == [] then []
    else
      var rest := WithoutId(sessions[1..], id);
      if sessions[0].id != id then [sessions[0]] + rest else rest
  }

  /** Exactly the sessions with the id are removed: every other session keeps its number of occurrences. */
  lemma {:induction false} WithoutIdCounts(sessions: seq<Session>, id: string)
    ensures forall s :: multiset(WithoutId(sessions, id))[s] == if s.id == id then 0 else multiset(sessions)[s]
  {
    if sessions != [] {
      WithoutIdCounts(sessions[1..], id);
      assert sessions == [sessions[0]] + sessions[1..];
      assert multiset(sessions) == multiset{sessions[0]} + multiset(sessions[1..]);
    }
  }

  /** Filtering works piece by piece, so the kept sessions stay in their order. */
  lemma {:induction false} WithoutIdAppend(a: seq<Session>, b: seq<Session>, id: string)
    ensures WithoutId(a + b, id) == WithoutId(a, id) + WithoutId(b, id)
  {
    if a != [] {
      assert (a + b)[0] == a[0];
      assert (a + b)[1..] == a[1..] + b;
      WithoutIdAppend(a[1..], b, id);
      if a[0].id != id {
        calc {
          WithoutId(a + b, id);
          [a[0]] + WithoutId(a[1..] + b, id);
          [a[0]] + (WithoutId(a[1..], id) + WithoutId(b, id));
          ([a[0]] + WithoutId(a[1..], id)) + WithoutId(b, id);
        }
      }
    } else {
      assert a + b == b;
    }
  }

  /** When no session carries the id, the list is unchanged. */
  lemma {:induction false} WithoutIdAbsent(sessions: seq<Session>, id: string)
    requires forall i :: 0 <= i < |sessions| ==> sessions[i].id != id
    ensures WithoutId(sessions, id) == sessions
  {
    if sessions != [] {
      WithoutIdAbsent(sessions[1..], id);
      assert [sessions[0]] + sessions[1..] == sessions;
    }
  }

  /** `sessions.map(s => s.id === id ? { ...s, title } : s)`. */
  function Retitled(sessions: seq<Session>, id: string, title: string): (r: seq<Session>)
    ensures |r| == |sessions|
    ensures forall i :: 0 <= i < |r| ==> r[i].id == sessions[i].id
    ensures forall i :: 0 <= i < |r| && sessions[i].id != id ==> r[i] == sessions[i]
    ensures forall i :: 0 <= i < |r| && sessions[i].id == id ==> r[i] == sessions[i].(title := title)
  {
    if sessions == [] then []
    else
      [if sessions[0].id == id then sessions[0].(title := title) else sessions[0]]
      + Retitled(sessions[1..], id, title)
  }

  /** True when `current` is the session with the given id (`currentSession?.id === id`). */
  predicate IsCurrent(current: Option<Session>, id: string) {
    current.Some? && current.value.id == id
  }

  /** The state of `useSessions(projectId)`. */
  class SessionStore {
    const projectId: string
    var sessions: seq<Session>
    var currentSession: Option<Session>
    var loading: bool
    var error: Option<string>

    constructor (projectId: string)
      ensures this.projectId == projectId
      ensures sessions == [] && currentSession == None && !loading && error == None
    {
      this.projectId := projectId;
      sessions := [];
      currentSession := None;
      loading := false;
      error := None;
    }

    /** `fetchSessions`: replace the list with the server's, or record the error text. */
    method FetchSessions(reply: Result<seq<Session>, ApiError>)
      modifies this
      ensures reply.Ok? ==> sessions == reply.value && error == None
      ensures reply.Err? ==> sessions == old(sessions) && error == Some(ErrorText(reply.error, FetchFallback))
      ensures currentSession == old(currentSession) && !loading
    {
      loading := true;
      error := None;
      match reply {
        case Ok(list) => sessions := list;
        case Err(e) => error := Some(ErrorText(e, FetchFallback));
      }
      loading := false;
    }

    /**
     * `createSession`: sends the request (with the title defaulted), prepends
     * the created session and returns it, or records the error and rethrows.
     */
    method CreateSession(title: Option<string>, chatModel: string, reply: Result<Session, ApiError>)
      returns (request: CreateRequest, outcome: Result<Session, ApiError>)
      modifies this
      ensures request == CreateRequest(projectId, RequestTitle(title), chatModel)
      ensures outcome == reply
      ensures reply.Ok? ==> sessions == [reply.value] + old(sessions) && error == None
      ensures reply.Err? ==> sessions == old(sessions) && error == Some(ErrorText(reply.error, CreateFallback))
      ensures currentSession == old(currentSession) && !loading
    {
      loading := true;
      error := None;
      request := CreateRequest(projectId, RequestTitle(title), chatModel);
      match reply {
        case Ok(created) => sessions := [created] + sessions;
        case Err(e) => error := Some(ErrorText(e, CreateFallback));
      }
      outcome := reply;
      loading := false;
    }

    /**
     * The synchronous half of `deleteSession`: the optimistic removal, before
     * the DELETE request settles. Returns the list to roll back to.
     */
    method BeginDelete(id: string) returns (previous: seq<Session>)
      modifies this
      ensures previous == old(sessions)
      ensures sessions == WithoutId(old(sessions), id)
      ensures currentSession == if IsCurrent(old(currentSession), id) then None else old(currentSession)
      ensures loading == old(loading) && error == old(error)
    {
      previous := sessions;
      sessions := WithoutId(sessions, id);
      if IsCurrent(currentSession, id) {
        currentSession := None;
      }
    }

    /** The second half of `deleteSession`: on failure, roll the list back, record the error and rethrow. */
    method SettleDelete(previous: seq<Session>, reply: Option<ApiError>) returns (rethrown: Option<ApiError>)
      modifies this
      ensures reply.None? ==> sessions == old(sessions) && error == old(error)
      ensures reply.Some? ==> sessions == previous && error == Some(ErrorText(reply.value, DeleteFallback))
      ensures rethrown == reply
      ensures currentSession == old(currentSession) && loading == old(loading)
    {
      rethrown := reply;
      if reply.Some? {
        error := Some(ErrorText(reply.value, DeleteFallback));
        sessions := previous;
      }
    }

    /**
     * `deleteSession`: optimistic removal of every session with the id, then
     * rollback of the list (but not of the current session) when the request fails.
     */
    method DeleteSession(id: string, reply: Option<ApiError>) returns (rethrown: Option<ApiError>)
      modifies this
      ensures reply.None? ==> sessions == WithoutId(old(sessions), id) && error == old(error)
      ensures reply.Some? ==> sessions == old(sessions) && error == Some(ErrorText(reply.value, DeleteFallback))
      ensures currentSession == if IsCurrent(old(currentSession), id) then None else old(currentSession)
      ensures rethrown == reply && loading == old(loading)
    {
      var previous := BeginDelete(id);
      rethrown := SettleDelete(previous, reply);
    }

    /**
     * `renameSession`: a blank title does nothing; otherwise the trimmed title
     * is sent, and on success set on every matching session and on the current
     * session when it matches. On failure the error is recorded and rethrown.
     */
    method RenameSession(id: string, newTitle: string, reply: Option<ApiError>)
      returns (sent: Option<string>, rethrown: Option<ApiError>)
      modifies this
      ensures IsBlank(newTitle) ==> sent == None && rethrown == None
      ensures IsBlank(newTitle) ==>
        sessions == old(sessions) && currentSession == old(currentSession) && error == old(error)
      ensures !IsBlank(newTitle) ==> sent == Some(Trim(newTitle)) && rethrown == reply
      ensures !IsBlank(newTitle) && reply.None? ==>
        sessions == Retitled(old(sessions), id, Trim(newTitle)) && error == old(error)
        && currentSession == (if IsCurrent(old(currentSession), id)
                              then Some(old(currentSession).value.(title := Trim(newTitle)))
                              else old(currentSession))
      ensures !IsBlank(newTitle) && reply.Some? ==>
        sessions == old(sessions) && currentSession == old(currentSession)
        && error == Some(ErrorText(reply.value, RenameFallback))
      ensures loading == old(loading)
    {
      sent, rethrown := None, None;
      if IsBlank(newTitle) {
        return;
      }
      var title := Trim(newTitle);
      sent := Some(title);
      match reply {
        case None =>
          sessions := Retitled(sessions, id, title);
          if IsCurrent(currentSession, id) {
            currentSession := Some(currentSession.value.(title := title));
          }
        case Some(e) =>
          error := Some(ErrorText(e, RenameFallback));
          rethrown := reply;
      }
    }
  }
}
