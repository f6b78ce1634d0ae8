/**
 * InferenceController: the two chat endpoints and the request metrics.
 * The three counters are fields that every request updates in place; the
 * shutdown after an interrupted model call is a request to the Supervisor.
 *
 * The collaborators are inputs to each call: what the context sources
 * answer, what the tool provider would answer, and what the model call
 * returns or throws. asyncChat's stream is paced and may be cancelled by
 * the client, so whether it runs to completion is an input as well.
 */
module InferenceController {
  import opened Wrappers
  import opened JavaLang
  import opened PromptAssembly
  import opened ResponsePackaging
  import opened ToolCallbacks
  import opened Lifecycle

  /** The prompt handed to the model: the messages, and the tool callbacks
      when the options carry them. */
  datatype Prompt = Prompt(messages: seq<Message>, tools: Option<seq<ToolCallback>>)

  /** One request from the override to the model call: the lookups made,
      whether the tool provider was asked, the prompt sent (None when an
      exception came first) and the model call's answer or exception. */
  datatype Exchange = Exchange(
    lookups: seq<Lookup>,
    toolsAsked: bool,
    sent: Option<Prompt>,
    outcome: Result<ChatResponse, JavaException>)

  /** The try block of asyncChat and syncChat up to `chatResponse()`, when
      the tool callbacks would be `tools` and the model would answer `reply`. */
  function RunExchange(model: string, p: ChatRequest, sources: ContextSources,
                       tools: Result<seq<ToolCallback>, JavaException>,
                       reply: Result<ChatResponse, JavaException>): Exchange {
    var prep := PreparePrompt(model, p, sources);
    match prep.value
    case Failure(e) => Exchange(prep.lookups, false, None, Failure(e))
    case Success(d) =>
      if !d.attachTools then Exchange(prep.lookups, false, Some(Prompt(d.messages, None)), reply)
      else
        match tools
        case Failure(e) => Exchange(prep.lookups, true, None, Failure(e))
        case Success(callbacks) => Exchange(prep.lookups, true, Some(Prompt(d.messages, Some(callbacks))), reply)
  }

  /** The change asyncChat leaves on pendingRequests: the increment is undone
      by the catch block and by the completion of the stream, but not when
      the answer is empty, and not while the stream has not completed. */
  function AsyncPendingChange(c: Completion, streamCompleted: bool): int {
    match c
    case Failed(_) => 0
    case EmptyAnswer => 1
    case Answered => if streamCompleted then 0 else 1
  }

  /** The change syncChat leaves on pendingRequests: only the early
      "Empty response" return skips the decrement. */
  function SyncPendingChange(c: Completion): int {
    if c.EmptyAnswer? then 1 else 0
  }

  /** What syncChat gives back: an HTTP response, or an exception that
      escapes the method. */
  datatype SyncReply = Responded(response: SyncResponse) | Propagated(e: JavaException)

  /** The three counters as logRequestMetrics reports them. */
  datatype MetricsReport = MetricsReport(totalRequests: int, requestsInPeriod: int, pendingRequests: int)

  class InferenceController {
    /** The configured `spring.ai.ollama.chat.model`. */
    const model: string
    const tools: ToolCallbackService
    const supervisor: Supervisor

    var requestCounter: int
    var pendingRequests: int
    var totalRequestsLastPeriod: int

    /** Requests in the current period and requests still pending are both
        among the requests counted since start-up. */
    ghost predicate Valid()
      reads this
    {
      0 <= totalRequestsLastPeriod <= requestCounter && 0 <= pendingRequests <= requestCounter
    }

    constructor (model: string, tools: ToolCallbackService, supervisor: Supervisor)
      ensures Valid()
      ensures this.model == model && this.tools == tools && this.supervisor == supervisor
      ensures requestCounter == 0 && pendingRequests == 0 && totalRequestsLastPeriod == 0
    {
      this.model := model;
      this.tools := tools;
      this.supervisor := supervisor;
      requestCounter := 0;
      pendingRequests := 0;
      totalRequestsLastPeriod := 0;
    }

    /** The shared part of the try block: the messages are assembled, the
        options get the tool callbacks when either flag asks for them, and
        the model is called with the prompt. */
    method CallModel(p: ChatRequest, sources: ContextSources,
                     provided: Result<seq<ToolCallback>, JavaException>,
                     reply: Result<ChatResponse, JavaException>)
      returns (sent: Option<Prompt>, outcome: Result<ChatResponse, JavaException>)
      modifies tools`functionCallbackList
      ensures var x := RunExchange(model, p, sources, CachedOrProvided(old(tools.functionCallbackList), provided), reply);
        sent == x.sent && outcome == x.outcome
        && tools.functionCallbackList == (if x.toolsAsked then CacheAfterGet(old(tools.functionCallbackList), provided)
                                          else old(tools.functionCallbackList))
    {
      var prep := PreparePrompt(model, p, sources);
      if prep.value.Failure? {
        return None, Failure(prep.value.error);
      }
      var dispatch := prep.value.value;
      var options: Option<seq<ToolCallback>> := None;
      if dispatch.attachTools {
        var callbacks := tools.GetFunctionCallbackList(provided);
        if callbacks.Failure? {
          return None, Failure(callbacks.error);
        }
        options := Some(callbacks.value);
      }
      sent := Some(Prompt(dispatch.messages, options));
      outcome := reply;
    }

    /** asyncChat. A null body is answered with one "Invalid input" error
        event before any counter moves. Otherwise every counter goes up by
        one, the events are those of the model's answer or of the exception,
        pendingRequests comes back down as AsyncPendingChange says, and an
        exception caused by an interruption shuts the process down with
        status 1. */
    method AsyncChat(params: Option<ChatRequest>, sources: ContextSources,
                     provided: Result<seq<ToolCallback>, JavaException>,
                     reply: Result<ChatResponse, JavaException>, streamCompleted: bool)
      returns (events: seq<Event>, sent: Option<Prompt>)
      requires Valid()
      modifies this, tools`functionCallbackList, supervisor
      ensures Valid()
      ensures params.None? ==>
                && events == [ErrorEvent(InvalidInput)] && sent == None
                && requestCounter == old(requestCounter)
                && pendingRequests == old(pendingRequests)
                && totalRequestsLastPeriod == old(totalRequestsLastPeriod)
                && tools.functionCallbackList == old(tools.functionCallbackList)
                && supervisor.state == old(supervisor.state)
      ensures params.Some? ==>
                var x := RunExchange(model, params.value, sources,
                                     CachedOrProvided(old(tools.functionCallbackList), provided), reply);
                var c := AsyncCompletion(x.outcome);
                && events == AsyncEvents(x.outcome) && sent == x.sent
                && requestCounter == old(requestCounter) + 1
                && totalRequestsLastPeriod == old(totalRequestsLastPeriod) + 1
                && pendingRequests == old(pendingRequests) + AsyncPendingChange(c, streamCompleted)
                && tools.functionCallbackList == (if x.toolsAsked then CacheAfterGet(old(tools.functionCallbackList), provided)
                                                  else old(tools.functionCallbackList))
                && supervisor.state == (if c.Failed? && CauseIsInterrupted(c.e)
                                        then AfterExit(old(supervisor.state), InterruptedExitStatus)
                                        else old(supervisor.state))
    {
      if params.None? {
        events := [ErrorEvent(InvalidInput)];
        sent := None;
        return;
      }
      requestCounter := requestCounter + 1;
      pendingRequests := pendingRequests + 1;
      totalRequestsLastPeriod := totalRequestsLastPeriod + 1;
      var outcome;
      sent, outcome := CallModel(params.value, sources, provided, reply);
      events := AsyncEvents(outcome);
      match AsyncCompletion(outcome)
      case Failed(e) =>
        pendingRequests := pendingRequests - 1;
        if CauseIsInterrupted(e) {
          supervisor.Exit(InterruptedExitStatus);
        }
      case EmptyAnswer =>
      case Answered =>
        if streamCompleted {
          pendingRequests := pendingRequests - 1;
        }
    }

    /** syncChat. The counters go up before anything is checked. A null body
        throws when the DeepSeek override dereferences it outside the try
        block; under any other model the first dereference inside the try
        throws and is answered with 500. Otherwise the response is that of
        the model's answer or of the exception; only an empty answer leaves
        pendingRequests raised, and no exception triggers a shutdown. */
    method SyncChat(params: Option<ChatRequest>, sources: ContextSources,
                    provided: Result<seq<ToolCallback>, JavaException>,
                    reply: Result<ChatResponse, JavaException>)
      returns (response: SyncReply, sent: Option<Prompt>)
      requires Valid()
      modifies this, tools`functionCallbackList
      ensures Valid()
      ensures requestCounter == old(requestCounter) + 1
      ensures totalRequestsLastPeriod == old(totalRequestsLastPeriod) + 1
      ensures params.None? ==>
                && sent == None
                && tools.functionCallbackList == old(tools.functionCallbackList)
                && (model == DeepSeekModel ==>
                      response == Propagated(NullPointer) && pendingRequests == old(pendingRequests) + 1)
                && (model != DeepSeekModel ==>
                      response == Responded(SyncResponse(500, Error(ExceptionText(NullPointer))))
                      && pendingRequests == old(pendingRequests))
      ensures params.Some? ==>
                var x := RunExchange(model, params.value, sources,
                                     CachedOrProvided(old(tools.functionCallbackList), provided), reply);
                && response == Responded(SyncResult(x.outcome)) && sent == x.sent
                && pendingRequests == old(pendingRequests) + SyncPendingChange(SyncCompletion(x.outcome))
                && tools.functionCallbackList == (if x.toolsAsked then CacheAfterGet(old(tools.functionCallbackList), provided)
                                                  else old(tools.functionCallbackList))
    {
      requestCounter := requestCounter + 1;
      pendingRequests := pendingRequests + 1;
      totalRequestsLastPeriod := totalRequestsLastPeriod + 1;
      sent := None;
      if params.None? {
        if model == DeepSeekModel {
          response := Propagated(NullPointer);
          return;
        }
        pendingRequests := pendingRequests - 1;
        response := Responded(SyncResponse(500, Error(ExceptionText(NullPointer))));
        return;
      }
      var outcome;
      sent, outcome := CallModel(params.value, sources, provided, reply);
      response := Responded(SyncResult(outcome));
      if !SyncCompletion(outcome).EmptyAnswer? {
        pendingRequests := pendingRequests - 1;
      }
    }

    /** logRequestMetrics: reports the three counters and starts a new
        period; the other two counters are left as they are. */
    method LogRequestMetrics() returns (report: MetricsReport)
      requires Valid()
      modifies this`totalRequestsLastPeriod
      ensures Valid()
      ensures report == MetricsReport(requestCounter, old(totalRequestsLastPeriod), pendingRequests)
      ensures totalRequestsLastPeriod == 0
    {
      report := MetricsReport(requestCounter, totalRequestsLastPeriod, pendingRequests);
      totalRequestsLastPeriod := 0;
    }
  }

  // ---------------------------------------------------------------------------
  // Properties of one exchange

  /** The model is called with the tool callbacks exactly when the request,
      after the override, asks for them with `enableTool || onlyTool`, and
      the tool provider is asked only then. */
  lemma ToolsSentIffRequested(model: string, p: ChatRequest, sources: ContextSources,
                              tools: Result<seq<ToolCallback>, JavaException>,
                              reply: Result<ChatResponse, JavaException>)
    requires RunExchange(model, p, sources, tools, reply).sent.Some?
    ensures var x := RunExchange(model, p, sources, tools, reply);
      && (x.sent.value.tools.Some? <==> ToolsRequested(ApplyModelOverride(model, p)) == Success(true))
      && (x.sent.value.tools.Some? ==> tools.Success? && x.sent.value.tools.value == tools.value)
      && (x.toolsAsked <==> x.sent.value.tools.Some?)
  {
  }

  /** The model is called exactly when the assembly, the tool flags and (when
      asked) the tool provider all succeed; the call's answer is then the
      outcome, and otherwise the first exception is. */
  lemma ModelCalledIffPreparationSucceeds(model: string, p: ChatRequest, sources: ContextSources,
                                          tools: Result<seq<ToolCallback>, JavaException>,
                                          reply: Result<ChatResponse, JavaException>)
    ensures var x := RunExchange(model, p, sources, tools, reply);
      var prep := PreparePrompt(model, p, sources);
      && (x.sent.Some? <==> prep.value.Success? && (prep.value.value.attachTools ==> tools.Success?))
      && (x.sent.Some? ==> x.outcome == reply && x.sent.value.messages == prep.value.value.messages)
      && (prep.value.Failure? ==> x.outcome == Failure(prep.value.error) && !x.toolsAsked)
      && x.lookups == prep.lookups
  {
  }

  /** A failing tool provider is an ordinary exception: the model is not
      called, asyncChat answers with its message, and the counters are
      undone. */
  lemma ToolProviderFailureIsReported(model: string, p: ChatRequest, sources: ContextSources,
                                      e: JavaException, reply: Result<ChatResponse, JavaException>)
    requires PreparePrompt(model, p, sources).value.Success?
    requires PreparePrompt(model, p, sources).value.value.attachTools
    ensures var x := RunExchange(model, p, sources, Failure(e), reply);
      && x.sent == None && x.toolsAsked
      && AsyncEvents(x.outcome) == [ErrorEvent(ExceptionText(e))]
      && SyncResult(x.outcome) == SyncResponse(500, Error(ExceptionText(e)))
      && AsyncPendingChange(AsyncCompletion(x.outcome), false) == 0
  {
  }

  // ---------------------------------------------------------------------------
  // The counters over several requests

  /** Two requests in a row on a fresh controller, the first answered and
      streamed to completion, the second answered empty: two requests are
      counted, one is still pending, and the metrics report says so before
      starting a new period. */
  method TwoRequests(model: string, tools: ToolCallbackService, supervisor: Supervisor,
                     p: ChatRequest, sources: ContextSources,
                     provided: Result<seq<ToolCallback>, JavaException>, answer: seq<CodeUnit>)
    returns (report: MetricsReport)
    requires |answer| > 0
    requires !PreparePrompt(model, p, sources).value.Failure?
    requires provided.Success?
    modifies tools`functionCallbackList, supervisor
    ensures report == MetricsReport(2, 2, 1)
  {
    var controller := new InferenceController(model, tools, supervisor);
    var full := ChatResponse(Some(Generation(Some(Some(answer)))), None);
    var empty := ChatResponse(Some(Generation(Some(Some([])))), None);
    var events, sent := controller.AsyncChat(Some(p), sources, provided, Success(full), true);
    events, sent := controller.AsyncChat(Some(p), sources, provided, Success(empty), true);
    report := controller.LogRequestMetrics();
  }
}
