/**
 * The streaming chat hook of the frontend (frontend/src/hooks/useChat.js):
 * the message list of the open session, the input box, and the `sending` and
 * `historyLoading` flags.
 *
 * The network is a parameter. A history request either resolves with a list
 * of messages or fails. A streaming response is a `Transport`: the chunks the
 * reader delivers, already decoded to text, and whether the stream then ends
 * normally or fails. A rejected fetch and a response whose status is not ok
 * are both `FailedAfter([])`.
 *
 * As in the source, each chunk is split into lines on its own (a line cut by a
 * read boundary is not reassembled), a `[DONE]` line is skipped rather than
 * ending the stream, and no check ties a delta to the session that was open
 * when the send began.
 */
module StreamChat {
  import opened Wrappers
  import opened Text
  import opened ChatModels
  import SessionHook

  const DataPrefix := "data: "
  const DoneMarker := "[DONE]"
  const StreamErrorText := "Error sending message. Please try again."

  /** What the streaming request delivers. */
  datatype Transport =
    | Delivered(chunks: seq<string>)    // the reader reports `done` after these chunks
    | FailedAfter(chunks: seq<string>)  // the request, the status check or a later read throws after these chunks

  /** The body of `POST /sessions/{id}/chat/stream`. */
  datatype StreamRequest = StreamRequest(sessionId: string, message: string)

  /** The text delta one line carries: the payload of a `data: ` line other than `[DONE]`. */
  function LineDelta(line: string): (d: Option<string>)
    ensures d.Some? <==> StartsWith(line, DataPrefix) && line[|DataPrefix|..] != DoneMarker
    ensures d.Some? ==> line == DataPrefix + d.value
  {
    if StartsWith(line, DataPrefix) && line[|DataPrefix|..] != DoneMarker
    then Some(line[|DataPrefix|..])
    else None
  }

  /** The deltas carried by a sequence of lines, in order. */
  function LineDeltas(lines: seq<string>): seq<string> {
    if lines == [] then []
    else
      LineDeltas(lines[..|lines| - 1])
      + (match LineDelta(lines[|lines| - 1]) case Some(d) => [d] case None => [])
  }

  /** The deltas of a sequence of chunks, each chunk split into lines on its own. */
  function ChunkDeltas(chunks: seq<string>): seq<string> {
    if chunks == [] then []
    else ChunkDeltas(chunks[..|chunks| - 1]) + LineDeltas(Split(chunks[|chunks| - 1], '\n'))
  }

  predicate EndsWithAssistant(msgs: seq<Message>) {
    |msgs| > 0 && msgs[|msgs| - 1].role == Assistant
  }

  /** One delta applied to the list: it extends the last message only if that is an assistant message. */
  function AppendToLast(msgs: seq<Message>, delta: string): (r: seq<Message>)
    ensures |r| == |msgs|
    ensures forall i :: 0 <= i < |msgs| - 1 ==> r[i] == msgs[i]
    ensures EndsWithAssistant(msgs) ==>
      r[|r| - 1] == Message(Assistant, msgs[|msgs| - 1].content + delta)
    ensures !EndsWithAssistant(msgs) ==> r == msgs
  {
    if EndsWithAssistant(msgs)
    then msgs[|msgs| - 1 := Message(Assistant, msgs[|msgs| - 1].content + delta)]
    else msgs
  }

  /** The deltas applied one by one, in arrival order. */
  function ApplyDeltas(msgs: seq<Message>, deltas: seq<string>): seq<Message> {
    if deltas == [] then msgs
    else AppendToLast(ApplyDeltas(msgs, deltas[..|deltas| - 1]), deltas[|deltas| - 1])
  }

  /**
   * The catch block: an empty assistant message at the end becomes the system
   * error message; any other list is left as it is.
   */
  function Substitute(msgs: seq<Message>): (r: seq<Message>)
    ensures |r| == |msgs|
    ensures forall i :: 0 <= i < |msgs| - 1 ==> r[i] == msgs[i]
    ensures r != msgs <==> EndsWithAssistant(msgs) && msgs[|msgs| - 1].content == ""
    ensures r != msgs ==> r[|r| - 1] == Message(System, StreamErrorText)
  {
    if EndsWithAssistant(msgs) && msgs[|msgs| - 1].content == ""
    then msgs[|msgs| - 1 := Message(System, StreamErrorText)]
    else msgs
  }

  /** The list an accepted send produces, step by step as the source performs it. */
  function SendOutcome(prev: seq<Message>, content: string, t: Transport): seq<Message> {
    var placed := prev + [Message(User, content), Message(Assistant, "")];
    var streamed := ApplyDeltas(placed, ChunkDeltas(t.chunks));
    if t.FailedAfter? then Substitute(streamed) else streamed
  }

  /** `SendOutcome` is the stream folded into the placeholder, then the failure substitution. */
  lemma SendOutcomeSteps(prev: seq<Message>, content: string, t: Transport, streamed: seq<Message>)
    requires streamed == ApplyDeltas(prev + [Message(User, content), Message(Assistant, "")], ChunkDeltas(t.chunks))
    ensures SendOutcome(prev, content, t) == if t.FailedAfter? then Substitute(streamed) else streamed
  {
  }

  /** The message that ends the transcript: the accumulated text, or the error message when a failed stream left it empty. */
  function Reply(text: string, failed: bool): Message {
    if failed && text == "" then Message(System, StreamErrorText) else Message(Assistant, text)
  }

  /** Applying deltas to a list that ends with an assistant message grows that message by their concatenation. */
  lemma {:induction false} ApplyDeltasToAssistant(msgs: seq<Message>, deltas: seq<string>)
    requires EndsWithAssistant(msgs)
    ensures ApplyDeltas(msgs, deltas)
         == msgs[..|msgs| - 1] + [Message(Assistant, msgs[|msgs| - 1].content + Concat(deltas))]
  {
    var n := |msgs|;
    if deltas == [] {
      assert Concat(deltas) == "";
      assert msgs[n - 1] == Message(Assistant, msgs[n - 1].content + "");
      assert msgs == msgs[..n - 1] + [msgs[n - 1]];
    } else {
      var init, last := deltas[..|deltas| - 1], deltas[|deltas| - 1];
      ApplyDeltasToAssistant(msgs, init);
      var grown := msgs[n - 1].content + Concat(init);
      var mid := msgs[..n - 1] + [Message(Assistant, grown)];
      assert ApplyDeltas(msgs, deltas) == AppendToLast(mid, last);
      assert mid[n - 1] == Message(Assistant, grown);
      assert AppendToLast(mid, last) == mid[n - 1 := Message(Assistant, grown + last)];
      assert mid[n - 1 := Message(Assistant, grown + last)]
          == msgs[..n - 1] + [Message(Assistant, grown + last)];
      assert Concat(deltas) == Concat(init) + last;
      assert grown + last == msgs[n - 1].content + Concat(deltas);
    }
  }

  /** Deltas never touch a list that does not end with an assistant message. */
  lemma {:induction false} ApplyDeltasElsewhere(msgs: seq<Message>, deltas: seq<string>)
    requires !EndsWithAssistant(msgs)
    ensures ApplyDeltas(msgs, deltas) == msgs
  {
    if deltas != [] {
      ApplyDeltasElsewhere(msgs, deltas[..|deltas| - 1]);
    }
  }

  /**
   * An accepted send leaves the earlier messages alone and ends the list with
   * the user message and one reply: the concatenation of all deltas, in
   * arrival order, or the error message when the stream failed before any
   * non-empty text arrived.
   */
  lemma SendTranscript(prev: seq<Message>, content: string, t: Transport)
    ensures SendOutcome(prev, content, t)
         == prev + [Message(User, content), Reply(Concat(ChunkDeltas(t.chunks)), t.FailedAfter?)]
  {
    var placed := prev + [Message(User, content), Message(Assistant, "")];
    var ds := ChunkDeltas(t.chunks);
    ApplyDeltasToAssistant(placed, ds);
    assert placed[..|placed| - 1] == prev + [Message(User, content)];
    assert "" + Concat(ds) == Concat(ds);
    var streamed := ApplyDeltas(placed, ds);
    assert streamed == prev + [Message(User, content), Message(Assistant, Concat(ds))];
    if t.FailedAfter? && Concat(ds) == "" {
      assert Substitute(streamed) == streamed[|streamed| - 1 := Message(System, StreamErrorText)];
    }
  }

  /**
   * A stream that fails after some non-empty text arrived keeps that text as
   * the reply, exactly as if it had ended normally: no error is shown.
   */
  lemma FailureKeepsPartialText(prev: seq<Message>, content: string, chunks: seq<string>)
    requires Concat(ChunkDeltas(chunks)) != ""
    ensures SendOutcome(prev, content, FailedAfter(chunks)) == SendOutcome(prev, content, Delivered(chunks))
    ensures SendOutcome(prev, content, FailedAfter(chunks))
         == prev + [Message(User, content), Message(Assistant, Concat(ChunkDeltas(chunks)))]
  {
    SendTranscript(prev, content, FailedAfter(chunks));
    SendTranscript(prev, content, Delivered(chunks));
  }

  /** A stream that fails before any non-empty text arrived ends the transcript with the error message. */
  lemma FailureWithoutText(prev: seq<Message>, content: string, chunks: seq<string>)
    requires Concat(ChunkDeltas(chunks)) == ""
    ensures SendOutcome(prev, content, FailedAfter(chunks))
         == prev + [Message(User, content), Message(System, StreamErrorText)]
  {
    SendTranscript(prev, content, FailedAfter(chunks));
  }

  /** Applying two runs of deltas is applying the first, then the second. */
  lemma {:induction false} ApplyDeltasAppend(msgs: seq<Message>, a: seq<string>, b: seq<string>)
    ensures ApplyDeltas(msgs, a + b) == ApplyDeltas(ApplyDeltas(msgs, a), b)
  {
    if b == [] {
      assert a + b == a;
    } else {
      var b' := b[..|b| - 1];
      assert (a + b)[..|a + b| - 1] == a + b';
      assert (a + b)[|a + b| - 1] == b[|b| - 1];
      ApplyDeltasAppend(msgs, a, b');
    }
  }

  /** The deltas of two runs of lines are the deltas of each, in order. */
  lemma {:induction false} LineDeltasAppend(a: seq<string>, b: seq<string>)
    ensures LineDeltas(a + b) == LineDeltas(a) + LineDeltas(b)
  {
    if b == [] {
      assert a + b == a;
    } else {
      var b' := b[..|b| - 1];
      assert (a + b)[..|a + b| - 1] == a + b';
      assert (a + b)[|a + b| - 1] == b[|b| - 1];
      LineDeltasAppend(a, b');
    }
  }

  /** A `[DONE]` line is skipped: the lines after it still deliver their deltas. */
  lemma DoneIsSkipped(before: seq<string>, after: seq<string>)
    ensures LineDeltas(before + [DataPrefix + DoneMarker] + after) == LineDeltas(before) + LineDeltas(after)
  {
    var done := DataPrefix + DoneMarker;
    assert (done)[|DataPrefix|..] == DoneMarker;
    LineDeltasAppend(before + [done], after);
    LineDeltasAppend(before, [done]);
    assert LineDeltas([done]) == LineDeltas([]) + [];
  }

  /** A line without the `data: ` prefix is ignored. */
  lemma OtherLinesIgnored(before: seq<string>, line: string, after: seq<string>)
    requires !StartsWith(line, DataPrefix)
    ensures LineDeltas(before + [line] + after) == LineDeltas(before) + LineDeltas(after)
  {
    assert LineDelta(line) == None;
    assert LineDeltas([line]) == LineDeltas([]) + [];
    LineDeltasAppend(before + [line], after);
    LineDeltasAppend(before, [line]);
  }

  /** After a newline, the lines of the rest are read as if on their own. */
  lemma LinesAfterNewline(g: string, rest: string)
    ensures LineDeltas(Split(g + ['\n'] + rest, '\n'))
         == LineDeltas(Split(g + ['\n'], '\n')) + LineDeltas(Split(rest, '\n'))
  {
    var lines, after := Split(g, '\n'), Split(rest, '\n');
    SplitAround(g, rest, '\n');
    SplitAround(g, "", '\n');
    assert g + ['\n'] + "" == g + ['\n'];
    assert Split(g + ['\n'], '\n') == lines + [""];
    assert LineDeltas([""]) == [] by {
      assert LineDeltas([""]) == LineDeltas([]) + [];
    }
    LineDeltasAppend(lines, [""]);
    LineDeltasAppend(lines, after);
  }

  /**
   * When every read but the last ends exactly at a line boundary, reading in
   * chunks gives the same deltas as reading the whole body at once.
   */
  lemma {:induction false} WholeLineChunks(chunks: seq<string>)
    requires forall k :: 0 <= k < |chunks| - 1 ==> chunks[k] != "" && chunks[k][|chunks[k]| - 1] == '\n'
    ensures ChunkDeltas(chunks) == LineDeltas(Split(Concat(chunks), '\n'))
  {
    if chunks == [] {
      assert LineDeltas([""]) == LineDeltas([]) + [];
    } else {
      var init := chunks[..|chunks| - 1];
      var last := chunks[|chunks| - 1];
      assert ChunkDeltas(chunks) == ChunkDeltas(init) + LineDeltas(Split(last, '\n'));
      assert Concat(chunks) == Concat(init) + last;
      if init == [] {
        assert Concat(chunks) == last;
      } else {
        WholeLineChunks(init);
        var f := Concat(init);
        var prev := init[|init| - 1];
        assert prev != "" && prev[|prev| - 1] == '\n';
        assert f == Concat(init[..|init| - 1]) + prev;
        assert f != [] && f[|f| - 1] == '\n';
        var g := f[..|f| - 1];
        assert f == g + ['\n'];
        LinesAfterNewline(g, last);
        assert Concat(chunks) == g + ['\n'] + last;
      }
    }
  }

  /** The frames of the worked stream below, line by line. */
  lemma HelloFrames()
    ensures LineDeltas(["data: Hi", "data: there", "data: [DONE]"]) == ["Hi", "there"]
  {
    var lines := ["data: Hi", "data: there", "data: [DONE]"];
    assert DataPrefix + DoneMarker == "data: [DONE]";
    assert lines == lines[..2] + [DataPrefix + DoneMarker] + [];
    DoneIsSkipped(lines[..2], []);
    assert lines[..2][..1] == ["data: Hi"];
    assert LineDelta("data: Hi") == Some("Hi");
    assert LineDelta("data: there") == Some("there");
    assert LineDeltas(["data: Hi"]) == LineDeltas([]) + ["Hi"];
  }

  /** A worked stream: three frames in one chunk. The payloads are concatenated verbatim. */
  lemma HelloScenario()
    ensures SendOutcome([], "Hello", Delivered([Join(["data: Hi", "data: there", "data: [DONE]"], "\n")]))
         == [Message(User, "Hello"), Message(Assistant, "Hithere")]
  {
    var lines := ["data: Hi", "data: there", "data: [DONE]"];
    var chunk := Join(lines, "\n");
    SplitJoin(lines, '\n');
    assert ChunkDeltas([chunk]) == ChunkDeltas([]) + LineDeltas(Split(chunk, '\n'));
    HelloFrames();
    assert Concat(["Hi", "there"]) == Concat(["Hi"]) + "there";
    assert Concat(["Hi"]) == Concat([]) + "Hi";
    assert "" + "Hi" + "there" == "Hithere";
    assert ChunkDeltas([chunk]) == ["Hi", "there"];
    assert Concat(ChunkDeltas([chunk])) == "Hithere";
    SendTranscript([], "Hello", Delivered([chunk]));
    assert Reply("Hithere", false) == Message(Assistant, "Hithere");
  }

  /** A chunk without a newline is one line. */
  lemma SingleLineChunk(chunk: string)
    requires '\n' !in chunk
    ensures LineDeltas(Split(chunk, '\n')) == (match LineDelta(chunk) case Some(d) => [d] case None => [])
  {
    SplitNoSeparator(chunk, '\n');
    assert LineDeltas([chunk]) == LineDeltas([]) + (match LineDelta(chunk) case Some(d) => [d] case None => []);
  }

  /** One more chunk read adds the deltas of its own lines. */
  lemma ChunkDeltasStep(chunks: seq<string>, read: nat)
    requires read < |chunks|
    ensures ChunkDeltas(chunks[..read + 1]) == ChunkDeltas(chunks[..read]) + LineDeltas(Split(chunks[read], '\n'))
  {
    assert chunks[..read + 1][..read] == chunks[..read];
  }

  /** The deltas of two chunks are those of their lines, chunk by chunk. */
  lemma ChunkDeltasOfTwo(a: string, b: string)
    ensures ChunkDeltas([a]) == LineDeltas(Split(a, '\n'))
    ensures ChunkDeltas([a, b]) == ChunkDeltas([a]) + LineDeltas(Split(b, '\n'))
  {
    assert [a, b][..1] == [a];
    assert [a][..0] == [];
  }

  /** A frame whose payload has no newline is one line. */
  lemma FrameIsOneLine(text: string)
    requires '\n' !in text
    ensures '\n' !in DataPrefix + text
  {
    var whole := DataPrefix + text;
    forall i | 0 <= i < |whole| ensures whole[i] != '\n' {
      if i < |DataPrefix| { assert whole[i] == DataPrefix[i]; } else { assert whole[i] == text[i - |DataPrefix|]; }
    }
  }

  /**
   * A frame cut by a read boundary inside its `data: ` prefix is lost:
   * neither half starts with the prefix on its own, while the uncut frame
   * would have delivered its payload.
   */
  lemma SplitFrameIsLost(first: string, second: string, text: string)
    requires 0 < |first| < |DataPrefix|
    requires first + second == DataPrefix + text
    requires '\n' !in text && text != DoneMarker
    ensures ChunkDeltas([first, second]) == []
    ensures ChunkDeltas([first + second]) == [text]
  {
    var whole := first + second;
    FrameIsOneLine(text);
    assert first == whole[..|first|] && second == whole[|first|..];
    assert '\n' !in first && '\n' !in second;
    assert LineDelta(first) == None;
    assert second[0] == DataPrefix[|first|] != DataPrefix[0];
    assert LineDelta(second) == None;
    assert whole[|DataPrefix|..] == text;
    assert LineDelta(whole) == Some(text);
    SingleLineChunk(first);
    SingleLineChunk(second);
    SingleLineChunk(whole);
    ChunkDeltasOfTwo(first, second);
    ChunkDeltasOfTwo(whole, "");
  }

  /** The state of `useChat(currentSession)`. */
  class ChatHook {
    var messages: seq<Message>
    var input: string
    var sending: bool
    var historyLoading: bool

    constructor ()
      ensures messages == [] && input == "" && !sending && !historyLoading
    {
      messages, input, sending, historyLoading := [], "", false, false;
    }

    /** `setInput`: the text box changes. */
    method SetInput(text: string)
      modifies this
      ensures input == text
      ensures messages == old(messages) && sending == old(sending) && historyLoading == old(historyLoading)
    {
      input := text;
    }

    /** The synchronous half of `loadHistory`: the list is emptied before the request is issued. */
    method BeginHistoryLoad()
      modifies this
      ensures messages == [] && historyLoading
      ensures input == old(input) && sending == old(sending)
    {
      messages := [];
      historyLoading := true;
    }

    /** The second half of `loadHistory`: the fetched list replaces the (empty) list; a failure leaves it as it is. */
    method FinishHistoryLoad(history: Option<seq<Message>>)
      modifies this
      ensures messages == if history.Some? then history.value else old(messages)
      ensures !historyLoading
      ensures input == old(input) && sending == old(sending)
    {
      if history.Some? {
        messages := history.value;
      }
      historyLoading := false;
    }

    /** `loadHistory`: the list ends as the fetched history, or empty when the request fails. */
    method LoadHistory(history: Option<seq<Message>>)
      modifies this
      ensures messages == if history.Some? then history.value else []
      ensures !historyLoading
      ensures input == old(input) && sending == old(sending)
    {
      BeginHistoryLoad();
      FinishHistoryLoad(history);
    }

    /**
     * The effect on `currentSession`: load the history of the new session, or
     * clear the list when there is none; `sending` is reset either way.
     */
    method OnSessionChange(session: Option<SessionHook.Session>, history: Option<seq<Message>>)
      modifies this
      ensures messages == if session.Some? && history.Some? then history.value else []
      ensures !sending && !historyLoading == (session.Some? || !old(historyLoading))
      ensures input == old(input)
    {
      if session.Some? {
        LoadHistory(history);
      } else {
        messages := [];
      }
      sending := false;
    }

    /** One pass of the read loop's body: every line of one chunk, in order. */
    method ApplyChunk(chunk: string)
      modifies this`messages
      ensures messages == ApplyDeltas(old(messages), LineDeltas(Split(chunk, '\n')))
    {
      var lines := Split(chunk, '\n');
      for j := 0 to |lines|
        invariant messages == ApplyDeltas(old(messages), LineDeltas(lines[..j]))
      {
        var line := lines[j];
        ghost var done := LineDeltas(lines[..j]);
        assert lines[..j + 1][..j] == lines[..j] && lines[..j + 1][j] == line;
        assert LineDeltas(lines[..j + 1]) == done + (match LineDelta(line) case Some(d) => [d] case None => []);
        if StartsWith(line, DataPrefix) {
          var data := line[|DataPrefix|..];
          if data == DoneMarker {
            assert LineDelta(line) == None;
            assert LineDeltas(lines[..j + 1]) == done;
            continue;
          }
          assert LineDelta(line) == Some(data);
          assert LineDeltas(lines[..j + 1]) == done + [data];
          assert (done + [data])[..|done|] == done;
          messages := AppendToLast(messages, data);
        } else {
          assert LineDelta(line) == None;
          assert LineDeltas(lines[..j + 1]) == done;
        }
      }
      assert lines[..|lines|] == lines;
    }

    /**
     * The `while (true)` read loop of `sendMessage`: each chunk in turn, until
     * the reader reports `done` or throws. Returns whether it threw.
     */
    method ReadStream(transport: Transport) returns (failed: bool)
      modifies this`messages
      ensures messages == ApplyDeltas(old(messages), ChunkDeltas(transport.chunks))
      ensures failed == transport.FailedAfter?
    {
      var chunks := transport.chunks;
      var read := 0;
      failed := false;
      while true
        invariant 0 <= read <= |chunks|
        invariant messages == ApplyDeltas(old(messages), ChunkDeltas(chunks[..read]))
        decreases |chunks| - read
      {
        if read == |chunks| {
          // this read reports `done`, or throws
          failed := transport.FailedAfter?;
          break;
        }
        var chunk := chunks[read];
        ChunkDeltasStep(chunks, read);
        ApplyDeltasAppend(old(messages), ChunkDeltas(chunks[..read]), LineDeltas(Split(chunk, '\n')));
        ApplyChunk(chunk);
        read := read + 1;
      }
      assert chunks[..read] == chunks;
    }

    /** The synchronous start of an accepted send: the user message and the empty placeholder, input cleared. */
    method PlaceMessages(content: string)
      modifies this
      ensures messages == old(messages) + [Message(User, content), Message(Assistant, "")]
      ensures input == "" && sending && historyLoading == old(historyLoading)
    {
      messages := messages + [Message(User, content)];
      input := "";
      sending := true;
      messages := messages + [Message(Assistant, "")];
    }

    /** The `catch` and `finally` of `sendMessage`: substitute on failure, then clear `sending`. */
    method Settle(failed: bool)
      modifies this`messages, this`sending
      ensures messages == if failed then Substitute(old(messages)) else old(messages)
      ensures !sending
    {
      if failed {
        messages := Substitute(messages);
      }
      sending := false;
    }

    /**
     * `sendMessage`: ignored when the content is blank or a send is under way.
     * Otherwise it appends the user message and an empty assistant placeholder,
     * clears the input, folds every delta of the stream into the last message,
     * substitutes the error message if the stream fails while the placeholder
     * is still empty, and clears `sending`.
     */
    method SendMessage(sessionId: string, content: string, transport: Transport)
      returns (request: Option<StreamRequest>)
      modifies this
      ensures IsBlank(content) || old(sending) ==>
        request == None && messages == old(messages) && input == old(input) && sending == old(sending)
      ensures !IsBlank(content) && !old(sending) ==>
        request == Some(StreamRequest(sessionId, content))
        && messages == SendOutcome(old(messages), content, transport)
        && input == "" && !sending
      ensures historyLoading == old(historyLoading)
    {
      if IsBlank(content) || sending {
        return None;
      }
      ghost var prev := messages;
      PlaceMessages(content);
      request := Some(StreamRequest(sessionId, content));
      var failed := ReadStream(transport);
      SendOutcomeSteps(prev, content, transport, messages);
      Settle(failed);
    }
  }
}
