/**
 * The in-memory session registry (backend/services/session_manager.py).
 *
 * The registry maps session ids to provider objects. Python dictionaries
 * keep insertion order, so the key order is kept beside the map in `order`.
 * Database reads and writes are parameters: the row found for an id, whether
 * the deletes succeeded, and the stored rows of the memory being loaded.
 */
module SessionRegistry {
  import opened Wrappers
  import opened Text
  import opened ChatModels
  import opened SummaryMemory
  import opened OpenAIService
  import opened ProviderFactory

  /** Defaults of `create_session` and of the row lookups in `get_session`. */
  const CreateChatModel := "gpt-4o-mini"
  const CreateSummaryModel := "gpt-3.5-turbo"
  const NewSessionTitle := "New Chat"

  /** A row of the `sessions` table; a `None` field is a key the row lacks. */
  datatype SessionRow = SessionRow(
    projectId: Option<string>,
    userId: Option<string>,
    model: Option<string>,
    enableDb: Option<bool>)

  /** The metadata row `create_session` inserts. */
  datatype SessionRecord = SessionRecord(id: string, userId: string, projectId: string, createdAt: string, title: string)

  predicate Distinct(s: seq<string>) {
    forall i, j :: 0 <= i < j < |s| ==> s[i] != s[j]
  }

  /** `s` with `id` removed, the order of the rest kept. */
  function Without(s: seq<string>, id: string): (r: seq<string>)
    ensures forall x :: x in r <==> x in s && x != id
    ensures Distinct(s) ==> Distinct(r)
    ensures id !in s ==> r == s
  {
    if s == [] then []
    else
      var rest := Without(s[1..], id);
      if s[0] == id then rest
      else
        assert Distinct(s) ==> s[0] !in rest by {
          if Distinct(s) {
            assert forall j :: 1 <= j < |s| ==> s[j] != s[0];
            assert s[0] !in s[1..];
          }
        }
        assert s == [s[0]] + s[1..];
        [s[0]] + rest
  }

  /** Removing an id from two runs of keys removes it from each: the remaining keys keep their order. */
  lemma {:induction false} WithoutAppend(a: seq<string>, b: seq<string>, id: string)
    ensures Without(a + b, id) == Without(a, id) + Without(b, id)
  {
    if a == [] {
      assert a + b == b;
    } else {
      assert (a + b)[0] == a[0] && (a + b)[1..] == a[1..] + b;
      WithoutAppend(a[1..], b, id);
    }
  }

  /** A list of distinct ids has as many elements as the set of them. */
  lemma {:induction false} DistinctCard(s: seq<string>)
    requires Distinct(s)
    ensures |set x | x in s| == |s|
  {
    if s != [] {
      var tail := s[1..];
      assert Distinct(tail) by {
        forall i, j | 0 <= i < j < |tail| ensures tail[i] != tail[j] {
          assert tail[i] == s[i + 1] && tail[j] == s[j + 1];
        }
      }
      DistinctCard(tail);
      assert s[0] !in tail by {
        forall j | 0 <= j < |tail| ensures tail[j] != s[0] {
          assert tail[j] == s[j + 1];
        }
      }
      assert (set x | x in s) == (set x | x in tail) + {s[0]} by {
        assert s == [s[0]] + tail;
      }
    }
  }

  /**
   * `get_user_sessions`: no database gives `[]`; otherwise the rows of the
   * user, narrowed to the project when one is given. `table` is the table
   * as the database returns it, already ordered by `created_at` descending.
   */
  function UserSessions(hasDb: bool, userId: string, projectId: Option<string>, table: seq<SessionRecord>)
    : (rows: seq<SessionRecord>)
    ensures !hasDb ==> rows == []
    ensures forall r :: r in rows ==> r in table && r.userId == userId
    ensures forall r :: r in rows ==> projectId.Some? && projectId.value != "" ==> r.projectId == projectId.value
    ensures hasDb ==> forall r :: r in table && r.userId == userId
                               && (projectId.None? || projectId.value == "" || r.projectId == projectId.value)
                               ==> r in rows
    decreases |table|
  {
    if !hasDb || table == [] then []
    else
      var last := table[|table| - 1];
      var keep := last.userId == userId && (projectId.None? || projectId.value == "" || last.projectId == projectId.value);
      var init := UserSessions(hasDb, userId, projectId, table[..|table| - 1]);
      assert table == table[..|table| - 1] + [last];
      if keep then init + [last] else init
  }

  /** The filter keeps the database order: the rows of two runs of the table are those of each run, in turn. */
  lemma {:induction false} UserSessionsAppend(hasDb: bool, userId: string, projectId: Option<string>,
                                              a: seq<SessionRecord>, b: seq<SessionRecord>)
    ensures UserSessions(hasDb, userId, projectId, a + b)
         == UserSessions(hasDb, userId, projectId, a) + UserSessions(hasDb, userId, projectId, b)
  {
    if b == [] {
      assert a + b == a;
    } else if hasDb {
      var init, last := b[..|b| - 1], b[|b| - 1];
      assert (a + b)[..|a + b| - 1] == a + init;
      assert (a + b)[|a + b| - 1] == last;
      UserSessionsAppend(hasDb, userId, projectId, a, init);
      var kept := if last.userId == userId && (projectId.None? || projectId.value == "" || last.projectId == projectId.value)
                  then [last] else [];
      assert UserSessions(hasDb, userId, projectId, a + b) == UserSessions(hasDb, userId, projectId, a + init) + kept;
      assert UserSessions(hasDb, userId, projectId, b) == UserSessions(hasDb, userId, projectId, init) + kept;
    }
  }

  class SessionManager {
    var sessions: map<string, OpenAIProvider>
    var order: seq<string>
    /** Whether a database client is configured. */
    const hasDb: bool

    /** The key order lists exactly the registered ids, each once. */
    ghost predicate Valid()
      reads this
    {
      Distinct(order) && forall id :: id in order <==> id in sessions
    }

    constructor (hasDb: bool)
      ensures Valid() && this.hasDb == hasDb
      ensures sessions == map[] && order == []
    {
      sessions := map[];
      order := [];
      this.hasDb := hasDb;
    }

    /** Registers `bot` under a new `id`, at the end of the key order. */
    method Register(id: string, bot: OpenAIProvider)
      requires Valid() && id !in sessions
      modifies this
      ensures Valid()
      ensures sessions == old(sessions)[id := bot] && order == old(order) + [id]
    {
      sessions := sessions[id := bot];
      order := order + [id];
    }

    /**
     * `create_session`: a missing id is replaced by `freshId`; a registered
     * id returns the registered provider and changes nothing. Otherwise a
     * provider is built, the metadata row is inserted when the database is
     * used (returned as `insert`), and the provider is registered.
     */
    method CreateSession(userId: string, projectId: string, sessionId: Option<string>, freshId: string,
                         chatModel: string, summaryModel: string, enableDb: bool, now: string,
                         uuid4Text: string, summaryRows: Option<seq<string>>, recentRows: Option<seq<Message>>)
      returns (id: string, bot: OpenAIProvider, insert: Option<SessionRecord>)
      requires Valid()
      modifies this
      ensures Valid()
      ensures id == if sessionId.Some? then sessionId.value else freshId
      ensures id in sessions && sessions[id] == bot
      ensures id in old(sessions) ==>
        bot == old(sessions)[id] && sessions == old(sessions) && order == old(order) && insert.None?
      ensures id !in old(sessions) ==>
        fresh(bot) && sessions == old(sessions)[id := bot] && order == old(order) + [id]
        && bot.chatModel == ModelOrDefault(chatModel) && bot.memory.modelName == ModelOrDefault(summaryModel)
        && bot.userId == userId && bot.projectId == [projectId]
        && bot.memory.enableDbPersistence == enableDb
        && insert == if enableDb && hasDb then Some(SessionRecord(id, userId, projectId, now, NewSessionTitle)) else None
    {
      id := if sessionId.Some? then sessionId.value else freshId;
      insert := None;
      if id in sessions {
        bot := sessions[id];
        return;
      }
      bot := GetLlmProvider(chatModel, id, projectId, userId, summaryModel, enableDb,
                            uuid4Text, hasDb, summaryRows, recentRows);
      if enableDb && hasDb {
        insert := Some(SessionRecord(id, userId, projectId, now, NewSessionTitle));
      }
      Register(id, bot);
    }

    /**
     * `get_session`: a registered id returns its provider without a lookup.
     * Otherwise, with a database, the row found for the id (`row`, `None`
     * when there is none or the query failed) is turned into a provider,
     * which is registered; without a row the result is `None`.
     */
    method GetSession(id: string, row: Option<SessionRow>, uuid4Text: string,
                      summaryRows: Option<seq<string>>, recentRows: Option<seq<Message>>)
      returns (bot: Option<OpenAIProvider>)
      requires Valid()
      modifies this
      ensures Valid()
      ensures id in old(sessions) ==> bot == Some(old(sessions)[id]) && sessions == old(sessions) && order == old(order)
      ensures id !in old(sessions) && (!hasDb || row.None?) ==>
        bot.None? && sessions == old(sessions) && order == old(order)
      ensures id !in old(sessions) && hasDb && row.Some? ==>
        bot.Some? && fresh(bot.value) && sessions == old(sessions)[id := bot.value] && order == old(order) + [id]
        && bot.value.projectId == [row.value.projectId.GetOr("")]
        && bot.value.userId == row.value.userId.GetOr("")
        && bot.value.chatModel == ModelOrDefault(row.value.model.GetOr(CreateChatModel))
        && bot.value.memory.modelName == ModelOrDefault(row.value.model.GetOr(CreateSummaryModel))
        && bot.value.memory.enableDbPersistence == row.value.enableDb.GetOr(true)
    {
      if id in sessions {
        return Some(sessions[id]);
      }
      bot := None;
      if hasDb && row.Some? {
        var r := row.value;
        var p := GetLlmProvider(r.model.GetOr(CreateChatModel), id, r.projectId.GetOr(""), r.userId.GetOr(""),
                                r.model.GetOr(CreateSummaryModel), r.enableDb.GetOr(true),
                                uuid4Text, hasDb, summaryRows, recentRows);
        Register(id, p);
        bot := Some(p);
      }
    }

    /**
     * `end_session`: a registered provider has its memory cleared and is
     * removed; the result is true exactly when there is a database and its
     * deletes succeeded (`deleteOk`).
     */
    method EndSession(id: string, deleteOk: bool) returns (ok: bool)
      requires Valid()
      modifies this, if id in sessions then {sessions[id].memory} else {}
      ensures Valid()
      ensures ok == (hasDb && deleteOk)
      ensures id !in sessions
      ensures sessions == old(sessions) - {id} && order == Without(old(order), id)
      ensures id in old(sessions) ==> old(sessions)[id].memory.State() == MemoryState("", [])
    {
      if id in sessions {
        sessions[id].ResetConversation();
        sessions := sessions - {id};
        order := Without(order, id);
      }
      ok := hasDb && deleteOk;
    }

    /** `get_active_sessions`: the registered ids in insertion order. */
    method GetActiveSessions() returns (ids: seq<string>)
      requires Valid()
      ensures ids == order
      ensures forall id :: id in ids <==> id in sessions
      ensures Distinct(ids)
    {
      ids := order;
    }

    /** `get_session_count`: the number of registered sessions, which is also the length of the id list. */
    method GetSessionCount() returns (n: int)
      requires Valid()
      ensures n == |sessions| && n == |order|
    {
      n := |sessions|;
      DistinctCard(order);
      assert sessions.Keys == set x | x in order;
    }
  }
}
