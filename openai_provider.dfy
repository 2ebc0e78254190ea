/**
 * The chat provider (backend/services/llm/openai_service.py): assembles the
 * message list for the chat model from the system prompt, the memory's
 * context and the user message, and records a successful exchange in the
 * memory.
 *
 * The chat model call is a parameter: `Some(text)` for the text it returned
 * (possibly empty), `None` for a call that raised or returned no text.
 */
module OpenAIService {
  import opened Wrappers
  import opened Text
  import opened ChatModels
  import opened SummaryMemory

  const ContextIntro := "Context from previous conversation:\n"
  const ProviderPrefix := "OpenAI,"
  const SummaryThreshold := 6

  /** True when the memory's context is worth sending: non-empty and not the no-history sentinel. */
  predicate HasContext(context: string) {
    context != "" && context != NoHistory
  }

  /**
   * The list sent to the chat model: the system prompt if there is one, then
   * the context if there is one, and always the user message last.
   */
  function PromptMessages(systemPrompt: string, context: string, message: string): (msgs: seq<Message>)
    ensures |msgs| == 1 + (if systemPrompt != "" then 1 else 0) + (if HasContext(context) then 1 else 0)
    ensures msgs[|msgs| - 1] == Message(User, message)
    ensures systemPrompt != "" ==> msgs[0] == Message(System, systemPrompt)
    ensures HasContext(context) ==> msgs[|msgs| - 2] == Message(System, ContextIntro + context)
    ensures forall i :: 0 <= i < |msgs| - 1 ==> msgs[i].role == System
  {
    (if systemPrompt != "" then [Message(System, systemPrompt)] else [])
    + (if HasContext(context) then [Message(System, ContextIntro + context)] else [])
    + [Message(User, message)]
  }

  /** An empty memory adds no context message: only the prompt and the user message are sent. */
  lemma EmptyMemorySendsNoContext(systemPrompt: string, message: string)
    ensures PromptMessages(systemPrompt, ContextString("", []), message)
         == (if systemPrompt != "" then [Message(System, systemPrompt)] else []) + [Message(User, message)]
  {
    assert !HasContext(ContextString("", []));
  }

  /** A non-empty memory always adds its context, right before the user message. */
  lemma MemoryContextIsSent(systemPrompt: string, summary: string, buffer: seq<Message>, message: string)
    requires summary != "" || buffer != []
    ensures var msgs := PromptMessages(systemPrompt, ContextString(summary, buffer), message);
      msgs[|msgs| - 2] == Message(System, ContextIntro + ContextString(summary, buffer))
  {
    var c := ContextString(summary, buffer);
    assert c != NoHistory;
    assert c != "" by {
      if summary != "" {
        assert StartsWith(c, SummaryHeading + summary);
      } else {
        assert EndsWith(c, RecentHeading + BufferText(buffer));
      }
    }
  }

  /** `get_provider_name`: "OpenAI," followed by the chat model. */
  function ProviderName(chatModel: string): (name: string)
    ensures StartsWith(name, ProviderPrefix) && name[|ProviderPrefix|..] == chatModel
  {
    ProviderPrefix + chatModel
  }

  /** The `OpenAIProvider` object. */
  class OpenAIProvider {
    const sessionId: string
    /** `project_id` is stored with a trailing comma in the base class, so it is a one-element tuple. */
    const projectId: seq<string>
    const userId: string
    const chatModel: string
    const memory: SummarizationMemory

    /**
     * `__init__`: an empty session id is replaced by `str(uuid4)` (given as
     * `uuid4Text`); the memory is built with threshold 6 and the summary
     * model, loading stored memory when persistence is enabled.
     */
    constructor (sessionId: string, uuid4Text: string, projectId: string, userId: string,
                 chatModel: string, summaryModel: string, enableDb: bool,
                 dbAvailable: bool, summaryRows: Option<seq<string>>, recentRows: Option<seq<Message>>)
      ensures this.sessionId == if sessionId != "" then sessionId else uuid4Text
      ensures this.projectId == [projectId] && this.userId == userId
      ensures this.chatModel == chatModel
      ensures fresh(memory)
      ensures memory.sessionId == this.sessionId && memory.summaryThreshold == SummaryThreshold
      ensures memory.modelName == summaryModel && memory.enableDbPersistence == enableDb
      ensures memory.State() == if memory.hasDb then Loaded(MemoryState("", []), summaryRows, recentRows)
                                else MemoryState("", [])
    {
      var id := if sessionId != "" then sessionId else uuid4Text;
      this.sessionId := id;
      this.projectId := [projectId];
      this.userId := userId;
      this.chatModel := chatModel;
      memory := new SummarizationMemory(id, SummaryThreshold, summaryModel, enableDb, dbAvailable,
                                        summaryRows, recentRows);
    }

    function GetProviderName(): (name: string)
      ensures StartsWith(name, ProviderPrefix) && name[|ProviderPrefix|..] == chatModel
    {
      ProviderName(chatModel)
    }

    /** The message list `chat` builds, one optional message at a time. */
    method AssembleMessages(systemPrompt: string, context: string, message: string) returns (messages: seq<Message>)
      ensures messages == PromptMessages(systemPrompt, context, message)
    {
      messages := [];
      if systemPrompt != "" {
        messages := messages + [Message(System, systemPrompt)];
      }
      if context != "" && context != NoHistory {
        messages := messages + [Message(System, ContextIntro + context)];
      }
      messages := messages + [Message(User, message)];
    }

    /**
     * `chat`: the message list is assembled from the memory's context; a
     * non-empty reply is recorded in memory (possibly triggering a summary,
     * whose outcome is `summaryReply`) and returned. An empty reply or a
     * failed call returns nothing and leaves the memory untouched.
     */
    method Chat(message: string, systemPrompt: string, reply: Option<string>, summaryReply: Option<string>)
      returns (answer: Option<string>, sent: seq<Message>)
      modifies memory`runningSummary, memory`buffer, memory`submitted
      ensures sent == PromptMessages(systemPrompt, old(ContextString(memory.runningSummary, memory.buffer)), message)
      ensures answer == if reply.Some? && reply.value != "" then reply else None
      ensures answer.Some? ==>
        memory.State() == AfterAdd(old(memory.State()), message, answer.value, SummaryThreshold, summaryReply)
      ensures answer.Some? ==>
        memory.submitted == old(memory.submitted)
          + memory.Saved([Message(User, message), Message(Assistant, answer.value)])
          + (if |old(memory.buffer)| + 2 >= SummaryThreshold && summaryReply.Some?
             then memory.Saved([SummaryRow(memory.runningSummary)]) else [])
      ensures answer.None? ==> memory.State() == old(memory.State()) && memory.submitted == old(memory.submitted)
      requires memory.summaryThreshold == SummaryThreshold
    {
      var context := memory.GetContext(message);
      sent := AssembleMessages(systemPrompt, context, message);

      answer := None;
      match reply {
        case None =>
        case Some(text) =>
          if text != "" {
            var _ := memory.AddMessage(message, text, summaryReply);
            answer := Some(text);
          }
      }
    }

    /** `reset_conversation`: clears the memory. */
    method ResetConversation()
      modifies memory`runningSummary, memory`buffer
      ensures memory.State() == MemoryState("", [])
    {
      memory.Clear();
    }
  }
}
