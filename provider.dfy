/**
 * The provider factory (backend/services/llm/provider.py): blank model names
 * are replaced by the default model and the provider class is always the
 * OpenAI-compatible one.
 */
module ProviderFactory {
  import opened Wrappers
  import opened Text
  import opened ChatModels
  import opened SummaryMemory
  import opened OpenAIService

  lemma DefaultModelNotBlank()
    ensures !IsBlank(DefaultModel)
  {
    assert !IsSpace(DefaultModel[0]);
  }

  /** `if not model or model.strip() == "": model = DEFAULT_MODEL`. */
  function ModelOrDefault(model: string): (r: string)
    ensures IsBlank(model) ==> r == DefaultModel
    ensures !IsBlank(model) ==> r == model
    ensures !IsBlank(r)
  {
    DefaultModelNotBlank();
    if model == "" || Trim(model) == "" then DefaultModel else model
  }

  /** Replacing a blank name twice changes nothing more. */
  lemma ModelOrDefaultIdempotent(model: string)
    ensures ModelOrDefault(ModelOrDefault(model)) == ModelOrDefault(model)
  {
  }

  /**
   * `get_llm_provider`: constructs an `OpenAIProvider` and never hands it a
   * blank model name. The remaining parameters are those of the provider's
   * constructor (the memory's stored rows and the text of `str(uuid4)`).
   */
  method GetLlmProvider(chatModel: string, sessionId: string, projectId: string, userId: string,
                        summaryModel: string, enableDb: bool,
                        uuid4Text: string, dbAvailable: bool,
                        summaryRows: Option<seq<string>>, recentRows: Option<seq<Message>>)
    returns (p: OpenAIProvider)
    ensures fresh(p) && fresh(p.memory)
    ensures p.chatModel == ModelOrDefault(chatModel) && p.memory.modelName == ModelOrDefault(summaryModel)
    ensures !IsBlank(p.chatModel) && !IsBlank(p.memory.modelName)
    ensures p.sessionId == (if sessionId != "" then sessionId else uuid4Text)
    ensures p.projectId == [projectId] && p.userId == userId
    ensures p.memory.sessionId == p.sessionId && p.memory.enableDbPersistence == enableDb
    ensures p.memory.summaryThreshold == SummaryThreshold
    ensures p.memory.State() == if p.memory.hasDb then Loaded(MemoryState("", []), summaryRows, recentRows)
                                else MemoryState("", [])
  {
    var chat := ModelOrDefault(chatModel);
    var summary := ModelOrDefault(summaryModel);
    p := new OpenAIProvider(sessionId, uuid4Text, projectId, userId, chat, summary, enableDb,
                            dbAvailable, summaryRows, recentRows);
  }
}
