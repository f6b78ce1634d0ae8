/**
 * The request-shaping half of InferenceController.asyncChat and syncChat:
 * the model override, the choice between the tool-only and the contextual
 * prompt, the defaults, the vector-context gate, the four template
 * parameters, and whether the tool callbacks are attached.
 *
 * The three context collaborators (history service, vector store, template
 * service) are inputs; `Lookup` records which of them a request asked and
 * with what arguments, so "the store is not queried" is a statement about
 * the lookup log.
 */
module PromptAssembly {
  import opened Wrappers
  import opened JavaLang
  import opened ChatHistory

  /** The chat request body: AiMessageParams plus the enableTool/onlyTool
      flags the controller reads. Every field is a nullable reference. */
  datatype ChatRequest = ChatRequest(
    textContent: Option<string>,
    content: Option<string>,
    sessionId: Option<string>,
    assistantId: Option<string>,
    enableVectorStore: Option<bool>,
    enableTool: Option<bool>,
    onlyTool: Option<bool>)

  /** A body that sets nothing: enableVectorStore has the initialiser false;
      enableTool and onlyTool have none, so they stay null. */
  function EmptyRequest(): ChatRequest {
    ChatRequest(None, None, None, None, Some(false), None, None)
  }

  /** The model for which tool use is switched off. */
  const DeepSeekModel: string := "deepseek-r1:32b"
  const DefaultSessionId: string := "default_session"
  const DefaultUserId: string := "default_user"

  /** The configured model name forces both tool flags to false. */
  function ApplyModelOverride(model: string, p: ChatRequest): ChatRequest {
    if model == DeepSeekModel then p.(enableTool := Some(false), onlyTool := Some(false)) else p
  }

  /** `Boolean.FALSE.equals(onlyTool)`: only an explicit false selects the
      contextual prompt; null and true both select the tool-only prompt. */
  predicate Contextual(p: ChatRequest) {
    p.onlyTool == Some(false)
  }

  /** A request made to a context collaborator. */
  datatype Lookup =
    | HistoryLookup(sessionId: string, pageSize: int)
    | VectorLookup(assistantId: string, query: string)
    | TemplateLookup

  /** What the three collaborators answer (or throw) for this request. */
  datatype ContextSources = ContextSources(
    history: Result<seq<HistoryRecord>, JavaException>,
    passages: Result<seq<string>, JavaException>,
    template: Result<string, JavaException>)

  /** The four named parameters handed to the system prompt template. */
  datatype TemplateParams = TemplateParams(
    context: string,
    chatHistory: string,
    customSystemPrompt: string,
    userText: Option<string>)

  /** A prompt message. The template is not rendered here: the system message
      carries the template text and its parameter map. */
  datatype Message =
    | SystemMessage(template: string, params: TemplateParams)
    | UserMessage(text: Option<string>)

  /** The lookups made so far and the value or the exception that ends them. */
  datatype Fetched<T> = Fetched(lookups: seq<Lookup>, value: Result<T, JavaException>)

  /** useVectorStore: `!enableVectorStore` unboxes the flag (null throws);
      false gives "" without a search; true searches with the assistant
      filter and the query text and joins the passages with "\n". */
  function UseVectorStore(enable: Option<bool>, assistantId: string, userText: string,
                          passages: Result<seq<string>, JavaException>): (r: Fetched<string>)
    ensures enable != Some(true) ==> r.lookups == []
    ensures enable == Some(true) ==> r.lookups == [VectorLookup(assistantId, userText)]
    ensures r.value.Success? && enable == Some(false) ==> r.value.value == ""
    ensures r.value.Success? && enable == Some(true) ==>
              passages.Success? && r.value.value == Join(passages.value, '\n')
    ensures r.value.Failure? <==> enable.None? || (enable == Some(true) && passages.Failure?)
  {
    match enable
    case None => Fetched([], Failure(NullPointer))
    case Some(false) => Fetched([], Success(""))
    case Some(true) =>
      var asked := [VectorLookup(assistantId, userText)];
      match passages
      case Failure(e) => Fetched(asked, Failure(e))
      case Success(texts) => Fetched(asked, Success(Join(texts, '\n')))
  }

  /** The `messages` list of one request: the history is fetched first,
      then the vector context, then the template; the first exception ends
      the assembly. */
  function AssembleMessages(p: ChatRequest, sources: ContextSources): Fetched<seq<Message>> {
    if !Contextual(p) then
      Fetched([], Success([UserMessage(p.textContent)]))
    else
      var sessionId := p.sessionId.GetOr(DefaultSessionId);
      var userId := p.assistantId.GetOr(DefaultUserId);
      var textContent := p.textContent.GetOr("");
      var customSystemPrompt := p.content.GetOr("");
      var afterHistory := [HistoryLookup(sessionId, HistoryPageSize)];
      match sources.history
      case Failure(e) => Fetched(afterHistory, Failure(e))
      case Success(records) =>
        var vector := UseVectorStore(p.enableVectorStore, userId, textContent, sources.passages);
        var afterVector := afterHistory + vector.lookups;
        match vector.value
        case Failure(e) => Fetched(afterVector, Failure(e))
        case Success(context) =>
          var afterTemplate := afterVector + [TemplateLookup];
          match sources.template
          case Failure(e) => Fetched(afterTemplate, Failure(e))
          case Success(template) =>
            var params := TemplateParams(context, HistoryText(records), customSystemPrompt, p.textContent);
            Fetched(afterTemplate, Success([SystemMessage(template, params)]))
  }

  /** `enableTool || onlyTool` on boxed Booleans: each operand is unboxed,
      so a null operand that is reached throws. */
  function ToolsRequested(p: ChatRequest): (r: Result<bool, JavaException>)
    ensures r == Success(true) <==> p.enableTool == Some(true) || (p.enableTool == Some(false) && p.onlyTool == Some(true))
    ensures r == Success(false) <==> p.enableTool == Some(false) && p.onlyTool == Some(false)
    ensures r.Failure? <==> p.enableTool.None? || (p.enableTool == Some(false) && p.onlyTool.None?)
    ensures r.Failure? ==> r.error == NullPointer
  {
    match p.enableTool
    case None => Failure(NullPointer)
    case Some(true) => Success(true)
    case Some(false) =>
      match p.onlyTool
      case None => Failure(NullPointer)
      case Some(b) => Success(b)
  }

  /** The messages and whether the tool callbacks are to be attached. */
  datatype Dispatch = Dispatch(messages: seq<Message>, attachTools: bool)

  /** Everything asyncChat and syncChat do before asking for the tool
      callbacks: the override, the messages, then the tool flags. */
  function PreparePrompt(model: string, p: ChatRequest, sources: ContextSources): Fetched<Dispatch> {
    var q := ApplyModelOverride(model, p);
    var assembled := AssembleMessages(q, sources);
    match assembled.value
    case Failure(e) => Fetched(assembled.lookups, Failure(e))
    case Success(messages) =>
      match ToolsRequested(q)
      case Failure(e) => Fetched(assembled.lookups, Failure(e))
      case Success(attach) => Fetched(assembled.lookups, Success(Dispatch(messages, attach)))
  }

  // ---------------------------------------------------------------------------
  // Properties

  /** Unless onlyTool is exactly false, the prompt is one user message holding
      the raw textContent, and no collaborator is asked anything, whatever
      they would have answered. */
  lemma ToolOnlyPrompt(p: ChatRequest, sources: ContextSources)
    requires !Contextual(p)
    ensures AssembleMessages(p, sources).lookups == []
    ensures AssembleMessages(p, sources).value == Success([UserMessage(p.textContent)])
  {
  }

  /** With onlyTool exactly false and every collaborator answering, the
      prompt is one system message whose four parameters are the joined
      passages (or ""), the history text, the custom system prompt (default
      "") and the raw textContent; the collaborators are asked in the order
      history (default session, page size 30), vector store (default user,
      textContent defaulting to ""), template. */
  lemma ContextualPrompt(p: ChatRequest, sources: ContextSources)
    requires Contextual(p) && p.enableVectorStore.Some?
    requires sources.history.Success? && sources.passages.Success? && sources.template.Success?
    ensures var r := AssembleMessages(p, sources);
      var userId := p.assistantId.GetOr(DefaultUserId);
      var query := p.textContent.GetOr("");
      && r.value.Success?
      && r.value.value == [SystemMessage(sources.template.value, TemplateParams(
           if p.enableVectorStore == Some(true) then Join(sources.passages.value, '\n') else "",
           HistoryText(sources.history.value),
           p.content.GetOr(""),
           p.textContent))]
      && r.lookups == [HistoryLookup(p.sessionId.GetOr(DefaultSessionId), 30)]
                      + (if p.enableVectorStore == Some(true) then [VectorLookup(userId, query)] else [])
                      + [TemplateLookup]
  {
  }

  /** Whatever the mode and whatever the collaborators answer, the vector
      store is asked only when enableVectorStore is true. */
  lemma VectorStoreAskedOnlyWhenEnabled(p: ChatRequest, sources: ContextSources)
    requires p.enableVectorStore != Some(true)
    ensures forall l :: l in AssembleMessages(p, sources).lookups ==> !l.VectorLookup?
  {
  }

  /** Every successful assembly is exactly one message: a user message
      exactly in tool-only mode, a system message exactly in contextual mode. */
  lemma OneMessage(p: ChatRequest, sources: ContextSources)
    requires AssembleMessages(p, sources).value.Success?
    ensures |AssembleMessages(p, sources).value.value| == 1
    ensures AssembleMessages(p, sources).value.value[0].UserMessage? <==> !Contextual(p)
  {
  }

  /** Under the DeepSeek model the tool flags are ignored: the prompt is
      always contextual (the history service is always asked first) and
      the tools are never attached. */
  lemma DeepSeekNeverAttachesTools(p: ChatRequest, sources: ContextSources)
    ensures var r := PreparePrompt(DeepSeekModel, p, sources);
      && |r.lookups| > 0 && r.lookups[0].HistoryLookup?
      && (r.value.Success? ==> !r.value.value.attachTools && r.value.value.messages[0].SystemMessage?)
  {
  }

  /** Under any other model, a null onlyTool takes the tool-only branch, and
      unless enableTool is true the `||` then unboxes the null and throws. */
  lemma NullOnlyToolThrows(model: string, p: ChatRequest, sources: ContextSources)
    requires model != DeepSeekModel && p.onlyTool.None? && p.enableTool != Some(true)
    ensures PreparePrompt(model, p, sources) == Fetched([], Failure(NullPointer))
  {
  }

  /** A body that sets no field throws at the tool flags, before any lookup,
      under any model but DeepSeek. */
  lemma EmptyRequestThrows(model: string, sources: ContextSources)
    requires model != DeepSeekModel
    ensures PreparePrompt(model, EmptyRequest(), sources) == Fetched([], Failure(NullPointer))
  {
    NullOnlyToolThrows(model, EmptyRequest(), sources);
  }
}
