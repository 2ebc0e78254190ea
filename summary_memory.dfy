/**
 * The conversation memory of the backend
 * (backend/services/memory/summarization_memory.py): a running summary plus a
 * buffer of recent user/assistant messages. Once the buffer reaches the
 * threshold it is summarised by a language model and emptied.
 *
 * The summarising model call is a parameter: `Some(text)` is the text it
 * returned, `None` is any failure (an exception or a missing text). The
 * database is a parameter too: the rows its queries return, `None` for a
 * query that raises. Writes handed to the background executor are recorded,
 * in order, in `submitted`; their execution is not modelled.
 */
module SummaryMemory {
  import opened Wrappers
  import opened Text
  import opened ChatModels

  const NoHistory := "No conversation history available."
  const SummaryMarker := "[SUMMARY] "
  const SummaryHeading := "## Previous Conversation Summary:\n"
  const RecentHeading := "## Recent Messages:\n"
  const MergeInstructions :=
    "You are a conversation summarizer. Create a concise, factual summary "
    + "that preserves key information: names, dates, decisions, preferences, and context. "
    + "Merge the previous summary with new messages into one coherent summary."
  const FreshInstructions :=
    "You are a conversation summarizer. Create a concise, factual summary "
    + "that captures key information: names, dates, decisions, preferences, and context."

  /** The upper-case form of an ASCII lower-case letter. */
  function UpperAscii(c: char): (u: char)
    requires 'a' <= c <= 'z'
    ensures 'A' <= u <= 'Z'
  {
    (c as int - 32) as char
  }

  /** Python `role.capitalize()` on a role's value: the first letter upper-cased, the rest kept. */
  function RoleLabel(r: Role): (name: string)
    ensures |name| == |RoleValue(r)| > 0 && name[1..] == RoleValue(r)[1..]
    ensures 'a' <= RoleValue(r)[0] <= 'z' && name[0] == UpperAscii(RoleValue(r)[0])
  {
    match r
    case User => "User"
    case Assistant => "Assistant"
    case System => "System"
  }

  /** One buffered message as a line of text: "Role: content". */
  function EntryLine(m: Message): string {
    RoleLabel(m.role) + ": " + m.content
  }

  function EntryLines(buffer: seq<Message>): (lines: seq<string>)
    ensures |lines| == |buffer|
    ensures forall i :: 0 <= i < |buffer| ==> lines[i] == EntryLine(buffer[i])
  {
    if buffer == [] then [] else EntryLines(buffer[..|buffer| - 1]) + [EntryLine(buffer[|buffer| - 1])]
  }

  /** The buffer as one line per message, oldest first. */
  function BufferText(buffer: seq<Message>): string {
    Join(EntryLines(buffer), "\n")
  }

  /** A later message adds its line at the end of the buffer text. */
  lemma BufferTextAppend(buffer: seq<Message>, m: Message)
    ensures BufferText(buffer + [m])
         == if buffer == [] then EntryLine(m) else BufferText(buffer) + "\n" + EntryLine(m)
  {
    assert (buffer + [m])[..|buffer|] == buffer;
    assert EntryLines(buffer + [m]) == EntryLines(buffer) + [EntryLine(m)];
    JoinAppend(EntryLines(buffer), EntryLine(m), "\n");
  }

  /**
   * `get_context`: the summary section and the recent-messages section, the
   * summary first, separated by a blank line; the fixed sentinel text exactly
   * when there is neither.
   */
  function ContextString(summary: string, buffer: seq<Message>): (r: string)
    ensures r == NoHistory <==> summary == "" && buffer == []
    ensures summary != "" ==> StartsWith(r, SummaryHeading + summary)
    ensures buffer != [] ==> EndsWith(r, RecentHeading + BufferText(buffer))
    ensures summary != "" && buffer != [] ==>
      r == SummaryHeading + summary + "\n\n" + RecentHeading + BufferText(buffer)
    ensures summary != "" && buffer == [] ==> r == SummaryHeading + summary
    ensures summary == "" && buffer != [] ==> r == RecentHeading + BufferText(buffer)
  {
    var parts := (if summary != "" then [SummaryHeading + summary] else [])
               + (if buffer != [] then [RecentHeading + BufferText(buffer)] else []);
    if parts == [] then NoHistory
    else
      var r := Join(parts, "\n\n");
      JoinStartsWithFirst(parts, "\n\n");
      assert r[0] == '#' && NoHistory[0] == 'N';
      assert summary != "" && buffer != [] ==> parts[1..] == [RecentHeading + BufferText(buffer)];
      r
  }

  /** The two messages sent to the summarising model. */
  datatype Prompt = Prompt(system: string, user: string)

  const MergeRequest := "Provide an updated summary that combines both:"
  const FreshRequest := "Provide a summary:"

  /** The summarisation prompt: merge into the previous summary when there is one. */
  function SummaryPrompt(summary: string, buffer: seq<Message>): Prompt {
    if summary != "" then
      Prompt(MergeInstructions,
             "Previous Summary:\n" + summary + "\n\n" + "New Messages:\n" + BufferText(buffer) + "\n\n"
             + MergeRequest)
    else
      Prompt(FreshInstructions, "Conversation:\n" + BufferText(buffer) + "\n\n" + FreshRequest)
  }

  /** A concatenation starts with its left part and ends with its right part. */
  lemma AppendEnds(a: string, b: string)
    ensures StartsWith(a + b, a) && EndsWith(a + b, b)
  {
  }

  /**
   * With a previous summary the prompt merges: the merge instructions, and a
   * user prompt that closes with the merge request; without one, the plain
   * instructions and request.
   */
  lemma SummaryPromptShape(summary: string, buffer: seq<Message>)
    ensures var p := SummaryPrompt(summary, buffer);
      p.system == (if summary != "" then MergeInstructions else FreshInstructions)
    ensures var p := SummaryPrompt(summary, buffer);
      summary != "" ==> EndsWith(p.user, MergeRequest)
    ensures var p := SummaryPrompt(summary, buffer);
      summary == "" ==> EndsWith(p.user, FreshRequest)
  {
    var p := SummaryPrompt(summary, buffer);
    if summary != "" {
      var front := "Previous Summary:\n" + summary + "\n\n" + "New Messages:\n" + BufferText(buffer) + "\n\n";
      assert p.user == front + MergeRequest;
      AppendEnds(front, MergeRequest);
    } else {
      var front := "Conversation:\n" + BufferText(buffer) + "\n\n";
      assert p.user == front + FreshRequest;
      AppendEnds(front, FreshRequest);
    }
  }

  /** The part of the memory that the model reads. */
  datatype MemoryState = MemoryState(summary: string, buffer: seq<Message>)

  /** `_consolidate_memory`: a successful summary replaces the old one (stripped) and empties the buffer. */
  function Consolidated(st: MemoryState, reply: Option<string>): (r: MemoryState)
    ensures st.buffer == [] || reply.None? ==> r == st
    ensures st.buffer != [] && reply.Some? ==> r == MemoryState(Trim(reply.value), [])
  {
    if st.buffer == [] then st
    else match reply
      case None => st
      case Some(text) => MemoryState(Trim(text), [])
  }

  /** `add_message`: append the exchange, then consolidate if the buffer has reached the threshold. */
  function AfterAdd(st: MemoryState, userInput: string, aiResponse: string, threshold: int, reply: Option<string>)
    : MemoryState
  {
    var appended := st.(buffer := st.buffer + [Message(User, userInput), Message(Assistant, aiResponse)]);
    if |appended.buffer| >= threshold then Consolidated(appended, reply) else appended
  }

  /**
   * Below the threshold an exchange is kept in full, in order; at the
   * threshold a successful summary leaves an empty buffer and a failed one
   * keeps every message.
   */
  lemma AddKeepsOrSummarises(st: MemoryState, u: string, a: string, threshold: int, reply: Option<string>)
    ensures var r := AfterAdd(st, u, a, threshold, reply);
      if |st.buffer| + 2 < threshold || reply.None?
      then r == MemoryState(st.summary, st.buffer + [Message(User, u), Message(Assistant, a)])
      else r == MemoryState(Trim(reply.value), [])
  {
  }

  /**
   * With a summariser that succeeds, the buffer never stays at or above the
   * threshold: it is either below it or empty.
   */
  lemma BufferStaysBelowThreshold(st: MemoryState, u: string, a: string, threshold: int, text: string)
    ensures var r := AfterAdd(st, u, a, threshold, Some(text));
      r.buffer == [] || |r.buffer| < threshold
  {
  }

  /** The newest-first rows of a query, oldest first. */
  function Reversed(rows: seq<Message>): (r: seq<Message>)
    ensures |r| == |rows|
    ensures forall i :: 0 <= i < |rows| ==> r[i] == rows[|rows| - 1 - i]
  {
    if rows == [] then [] else Reversed(rows[1..]) + [rows[0]]
  }

  /** Reversing a suffix one row longer puts that row last. */
  lemma ReversedStep(rows: seq<Message>, k: nat)
    requires k < |rows|
    ensures Reversed(rows[k..]) == Reversed(rows[k + 1..]) + [rows[k]]
  {
    assert rows[k..][1..] == rows[k + 1..];
  }

  /** The summary text of a stored summary row: every "[SUMMARY] " in it removed. */
  function StoredSummaryText(content: string): string {
    RemoveAll(content, SummaryMarker)
  }

  /** The row a summary is saved as: a system message carrying the marker. */
  function SummaryRow(summary: string): Message {
    Message(System, SummaryMarker + summary)
  }

  /** A summary saved as "[SUMMARY] " + text loads back as the text, unless the text itself contains the marker. */
  lemma SummaryRoundTrip(text: string)
    requires forall i :: 0 <= i <= |text| ==> !OccursAt(text, SummaryMarker, i)
    ensures StoredSummaryText(SummaryRow(text).content) == text
  {
    var s := SummaryMarker + text;
    assert SummaryMarker <= s;
    assert s[|SummaryMarker|..] == text;
    RemoveAllAbsent(text, SummaryMarker);
  }

  /**
   * `load_memory`: the latest summary row (if any) sets the summary; the recent
   * rows, newest first, are appended oldest first. A query that raises ends
   * the load, keeping what was already set.
   */
  function Loaded(st: MemoryState, summaryRows: Option<seq<string>>, recentRows: Option<seq<Message>>): MemoryState {
    match summaryRows
    case None => st
    case Some(rows) =>
      var st1 := if rows != [] then st.(summary := StoredSummaryText(rows[0])) else st;
      match recentRows
      case None => st1
      case Some(recent) => st1.(buffer := st1.buffer + Reversed(recent))
  }

  /** The `SummarizationMemory` object. */
  class SummarizationMemory {
    const sessionId: string
    const summaryThreshold: int
    const modelName: string
    const enableDbPersistence: bool
    /** Whether a database client exists (`self.db` is not None). */
    const hasDb: bool
    var runningSummary: string
    var buffer: seq<Message>
    /** Rows handed to the background executor for insertion, in order. */
    var submitted: seq<Message>

    ghost function State(): MemoryState
      reads this
    {
      MemoryState(runningSummary, buffer)
    }

    /** `_save_to_db_async` writes only with persistence enabled and a client present. */
    predicate Persists() {
      enableDbPersistence && hasDb
    }

    /**
     * `__init__`: empty memory; with persistence enabled the stored memory is
     * loaded (`dbAvailable` says whether the client could be created).
     */
    constructor (sessionId: string, summaryThreshold: int, modelName: string, enableDbPersistence: bool,
                 dbAvailable: bool, summaryRows: Option<seq<string>>, recentRows: Option<seq<Message>>)
      ensures this.sessionId == sessionId && this.summaryThreshold == summaryThreshold
      ensures this.modelName == modelName && this.enableDbPersistence == enableDbPersistence
      ensures hasDb == (enableDbPersistence && dbAvailable)
      ensures State() == if hasDb then Loaded(MemoryState("", []), summaryRows, recentRows)
                         else MemoryState("", [])
      ensures submitted == []
    {
      this.sessionId := sessionId;
      this.summaryThreshold := summaryThreshold;
      this.modelName := modelName;
      this.enableDbPersistence := enableDbPersistence;
      this.hasDb := enableDbPersistence && dbAvailable;
      runningSummary := "";
      buffer := [];
      submitted := [];
      new;
      if hasDb {
        LoadMemory(summaryRows, recentRows);
      }
    }

    /** `load_memory`, with the rows its two queries return. */
    method LoadMemory(summaryRows: Option<seq<string>>, recentRows: Option<seq<Message>>)
      modifies this`runningSummary, this`buffer
      ensures State() == Loaded(old(State()), summaryRows, recentRows)
    {
      if summaryRows.None? {
        return;
      }
      ghost var st0 := State();
      if summaryRows.value != [] {
        runningSummary := StoredSummaryText(summaryRows.value[0]);
      }
      ghost var st1 := State();
      assert st1 == if summaryRows.value != [] then st0.(summary := StoredSummaryText(summaryRows.value[0])) else st0;
      if recentRows.None? {
        return;
      }
      AppendReversed(recentRows.value);
    }

    /** The `for row in reversed(recent)` loop of `load_memory`: the rows appended oldest first. */
    method AppendReversed(recent: seq<Message>)
      modifies this`buffer
      ensures buffer == old(buffer) + Reversed(recent)
    {
      var n := |recent|;
      for k := 0 to n
        invariant buffer == old(buffer) + Reversed(recent[n - k..])
      {
        ReversedStep(recent, n - 1 - k);
        buffer := buffer + [recent[n - 1 - k]];
      }
      assert recent[0..] == recent;
    }

    /** The rows `_save_to_db_async` hands over: all of them with persistence, none without. */
    function Saved(rows: seq<Message>): (r: seq<Message>)
      ensures r == if Persists() then rows else []
    {
      if Persists() then rows else []
    }

    /**
     * `add_message`: append the exchange, submit both messages for saving,
     * and consolidate once the buffer has reached the threshold. Returns the
     * summarisation prompt when one was sent.
     */
    method AddMessage(userInput: string, aiResponse: string, reply: Option<string>) returns (prompt: Option<Prompt>)
      modifies this`runningSummary, this`buffer, this`submitted
      ensures State() == AfterAdd(old(State()), userInput, aiResponse, summaryThreshold, reply)
      ensures var appended := old(buffer) + [Message(User, userInput), Message(Assistant, aiResponse)];
        prompt == (if |appended| >= summaryThreshold then Some(SummaryPrompt(old(runningSummary), appended)) else None)
      ensures submitted == old(submitted) + Saved([Message(User, userInput), Message(Assistant, aiResponse)])
                         + (if prompt.Some? && reply.Some? then Saved([SummaryRow(runningSummary)]) else [])
    {
      var exchange := [Message(User, userInput), Message(Assistant, aiResponse)];
      buffer := buffer + exchange;
      submitted := submitted + Saved([exchange[0]]);
      submitted := submitted + Saved([exchange[1]]);
      assert Saved([exchange[0]]) + Saved([exchange[1]]) == Saved(exchange);
      ghost var mid := State();
      ghost var midSubmitted := submitted;
      assert mid == old(State()).(buffer := old(buffer) + exchange);
      assert midSubmitted == old(submitted) + Saved(exchange);
      prompt := None;
      if |buffer| >= summaryThreshold {
        prompt := ConsolidateMemory(reply);
        assert State() == Consolidated(mid, reply);
      }
    }

    /**
     * `_consolidate_memory`: nothing on an empty buffer. Otherwise the prompt
     * is sent; on success the stripped summary replaces the old one, is
     * submitted for saving with its marker, and the buffer is emptied; on
     * failure nothing changes.
     */
    method ConsolidateMemory(reply: Option<string>) returns (prompt: Option<Prompt>)
      modifies this`runningSummary, this`buffer, this`submitted
      ensures State() == Consolidated(old(State()), reply)
      ensures prompt == if old(buffer) == [] then None else Some(SummaryPrompt(old(runningSummary), old(buffer)))
      ensures submitted == old(submitted)
        + (if prompt.Some? && reply.Some? then Saved([SummaryRow(runningSummary)]) else [])
    {
      if buffer == [] {
        return None;
      }
      prompt := Some(SummaryPrompt(runningSummary, buffer));
      if reply.Some? {
        ghost var before := State();
        var summary := Trim(reply.value);
        assert Consolidated(before, reply) == MemoryState(summary, []);
        ReplaceSummary(summary);
      }
    }

    /** The success path of `_consolidate_memory`: the new summary replaces the old one, is submitted with its marker, and the buffer is emptied. */
    method ReplaceSummary(summary: string)
      modifies this`runningSummary, this`buffer, this`submitted
      ensures runningSummary == summary && buffer == []
      ensures submitted == old(submitted) + Saved([SummaryRow(summary)])
    {
      runningSummary := summary;
      // the summary is saved only with persistence enabled, which `Saved` already requires
      submitted := submitted + Saved([SummaryRow(summary)]);
      buffer := [];
    }

    /** `get_context`: the query is ignored. */
    function GetContext(query: string): (r: string)
      reads this
      ensures r == NoHistory <==> runningSummary == "" && buffer == []
    {
      ContextString(runningSummary, buffer)
    }

    /** `clear`: forget the summary and the buffer. */
    method Clear()
      modifies this`runningSummary, this`buffer
      ensures State() == MemoryState("", [])
    {
      runningSummary := "";
      buffer := [];
    }

    /** `force_summarize`: consolidate regardless of the threshold, if there is anything buffered. */
    method ForceSummarize(reply: Option<string>) returns (prompt: Option<Prompt>)
      modifies this`runningSummary, this`buffer, this`submitted
      ensures State() == Consolidated(old(State()), reply)
      ensures prompt == if old(buffer) == [] then None else Some(SummaryPrompt(old(runningSummary), old(buffer)))
      ensures submitted == old(submitted)
        + (if prompt.Some? && reply.Some? then Saved([SummaryRow(runningSummary)]) else [])
    {
      prompt := None;
      if buffer != [] {
        prompt := ConsolidateMemory(reply);
      }
    }
  }
}
