/**
 * The response-packaging half of InferenceController: how the model's
 * answer becomes the server-sent events of asyncChat or the JSON body of
 * syncChat. JSON serialisation is not modelled: events and bodies are
 * datatypes. The answer text is a Java String, so it is kept as UTF-16
 * code units.
 */
module ResponsePackaging {
  import opened Wrappers
  import opened JavaLang

  /** The backend's usage metadata, passed through without interpretation. */
  datatype Usage = Usage(promptTokens: int, completionTokens: int, totalTokens: int)

  /** getResult(): its output message, whose getText() is the answer. The
      outer None is a null output; Some(None) is an output whose text is null. */
  datatype Generation = Generation(output: Option<Option<seq<CodeUnit>>>)

  /** What `chatClient.prompt(prompt).call().chatResponse()` returned: a null
      reference, or a response with an optional result and optional usage. */
  datatype ChatResponse =
    | NullResponse
    | ChatResponse(result: Option<Generation>, usage: Option<Usage>)

  /** The value under "metadata": the usage, asyncChat's marker string, or
      syncChat's empty map. */
  datatype MetadataValue = UsageMetadata(usage: Usage) | NoMetadataAvailable | EmptyMap

  /** The text under "error". */
  datatype ErrorText =
    | InvalidInput          // "Invalid input: AiMessageParams is null"
    | NoContentReceived     // "No content received"
    | EmptyResponse         // "Empty response"
    | ExceptionText(e: JavaException)   // e.getMessage()

  /** One server-sent event: its name is "message", "metadata" or "error". */
  datatype Event =
    | MessageEvent(content: CodeUnit)
    | MetadataEvent(metadata: MetadataValue)
    | ErrorEvent(error: ErrorText)
  {
    function Name(): string {
      match this
      case MessageEvent(_) => "message"
      case MetadataEvent(_) => "metadata"
      case ErrorEvent(_) => "error"
    }
  }

  /** How a request ended, as far as the in-flight counter is concerned. */
  datatype Completion = Answered | EmptyAnswer | Failed(e: JavaException)

  /** asyncChat's read of the answer text: "" when the response, the result
      or the output is null; the text itself is not checked, so a null text
      throws at `content.isEmpty()`. */
  function AsyncContent(resp: ChatResponse): Result<seq<CodeUnit>, JavaException> {
    if resp.ChatResponse? && resp.result.Some? && resp.result.value.output.Some? then
      match resp.result.value.output.value
      case None => Failure(NullPointer)
      case Some(text) => Success(text)
    else Success([])
  }

  /** One "message" event per code unit of the answer, in order. */
  function ContentEvents(units: seq<CodeUnit>): (r: seq<Event>)
    ensures |r| == |units|
    ensures forall i :: 0 <= i < |units| ==> r[i] == MessageEvent(units[i])
  {
    if |units| == 0 then [] else [MessageEvent(units[0])] + ContentEvents(units[1..])
  }

  /** asyncChat after the model call: an empty answer is one error event;
      otherwise the content events, then the metadata event. A null text
      reaches the catch block, which answers with one error event. */
  function StreamAnswer(resp: ChatResponse): seq<Event> {
    match AsyncContent(resp)
    case Failure(e) => [ErrorEvent(ExceptionText(e))]
    case Success(content) =>
      if |content| == 0 then [ErrorEvent(NoContentReceived)]
      else
        var meta := if resp.usage.Some? then UsageMetadata(resp.usage.value) else NoMetadataAvailable;
        ContentEvents(content) + [MetadataEvent(meta)]
  }

  /** The events asyncChat returns once the call has been made or has thrown:
      the catch block answers with one error event carrying the message. */
  function AsyncEvents(outcome: Result<ChatResponse, JavaException>): seq<Event> {
    match outcome
    case Failure(e) => [ErrorEvent(ExceptionText(e))]
    case Success(resp) => StreamAnswer(resp)
  }

  function AsyncCompletion(outcome: Result<ChatResponse, JavaException>): Completion {
    match outcome
    case Failure(e) => Failed(e)
    case Success(resp) =>
      match AsyncContent(resp)
      case Failure(e) => Failed(e)
      case Success(content) => if |content| == 0 then EmptyAnswer else Answered
  }

  /** syncChat's body: the answer with its metadata, or an error text. */
  datatype SyncBody = Answer(content: seq<CodeUnit>, metadata: MetadataValue) | Error(error: ErrorText)
  datatype SyncResponse = SyncResponse(status: int, body: SyncBody)

  /** syncChat's read of the answer. Unlike asyncChat it dereferences the
      response and the result's output without null checks (a null response
      or a null output throws), and a missing result reads as "". A null
      text throws at `responseContent.isEmpty()`. */
  function SyncContent(resp: ChatResponse): Result<seq<CodeUnit>, JavaException> {
    match resp
    case NullResponse => Failure(NullPointer)
    case ChatResponse(result, _) =>
      match result
      case None => Success([])
      case Some(g) =>
        if g.output.None? || g.output.value.None? then Failure(NullPointer)
        else Success(g.output.value.value)
  }

  /** syncChat after the model call. */
  function SyncResult(outcome: Result<ChatResponse, JavaException>): SyncResponse {
    match outcome
    case Failure(e) => SyncResponse(500, Error(ExceptionText(e)))
    case Success(resp) =>
      match SyncContent(resp)
      case Failure(e) => SyncResponse(500, Error(ExceptionText(e)))
      case Success(content) =>
        if |content| == 0 then SyncResponse(200, Error(EmptyResponse))
        else
          var meta := if resp.usage.Some? then UsageMetadata(resp.usage.value) else EmptyMap;
          SyncResponse(200, Answer(content, meta))
  }

  function SyncCompletion(outcome: Result<ChatResponse, JavaException>): Completion {
    match outcome
    case Failure(e) => Failed(e)
    case Success(resp) =>
      match SyncContent(resp)
      case Failure(e) => Failed(e)
      case Success(content) => if |content| == 0 then EmptyAnswer else Answered
  }

  // ---------------------------------------------------------------------------
  // Properties

  /** A non-empty answer of n code units streams as n "message" events
      carrying the units in order, then exactly one "metadata" event, last;
      an empty or missing answer streams as the single "No content received"
      error event and nothing else; an answer whose text is null streams as
      the single error event of the NullPointerException. */
  lemma StreamShape(resp: ChatResponse)
    ensures AsyncContent(resp).Failure? <==>
              resp.ChatResponse? && resp.result.Some? && resp.result.value.output == Some(None)
    ensures AsyncContent(resp).Failure? ==> StreamAnswer(resp) == [ErrorEvent(ExceptionText(NullPointer))]
    ensures AsyncContent(resp).Success? ==>
      var content, events := AsyncContent(resp).value, StreamAnswer(resp);
      && (|content| > 0 ==>
            && |events| == |content| + 1
            && (forall i :: 0 <= i < |content| ==> events[i] == MessageEvent(content[i]))
            && events[|content|] == MetadataEvent(if resp.usage.Some? then UsageMetadata(resp.usage.value)
                                                  else NoMetadataAvailable))
      && (|content| == 0 <==> events == [ErrorEvent(NoContentReceived)])
  {
    if AsyncContent(resp).Success? {
      var content, events := AsyncContent(resp).value, StreamAnswer(resp);
      if |content| > 0 {
        assert events[|content|].MetadataEvent?;
      }
    }
  }

  /** Only the last event of a stream can be anything but a "message". */
  lemma MetadataOnlyLast(resp: ChatResponse, i: nat)
    requires i + 1 < |StreamAnswer(resp)|
    ensures StreamAnswer(resp)[i].Name() == "message"
  {
    StreamShape(resp);
  }

  /** The answer "hi there" streams as its 8 characters, then the metadata. */
  lemma HiThereStream(usage: Option<Usage>)
    ensures var events := StreamAnswer(ChatResponse(Some(Generation(Some(Some(Utf16("hi there"))))), usage));
      && |events| == 9
      && (forall i :: 0 <= i < 8 ==> events[i] == MessageEvent("hi there"[i] as int as CodeUnit))
      && events[8].MetadataEvent?
  {
    var text := Utf16("hi there");
    Utf16WithinBmp("hi there");
    StreamShape(ChatResponse(Some(Generation(Some(Some(text)))), usage));
  }

  /** A character outside the Basic Multilingual Plane is streamed as two
      "message" events, one per surrogate: the split is by UTF-16 code unit,
      not by code point. */
  lemma SupplementaryCharacterSplits(usage: Option<Usage>)
    ensures var events := StreamAnswer(ChatResponse(Some(Generation(Some(Some(Utf16("\U{1F600}"))))), usage));
      events[..2] == [MessageEvent(0xD83D), MessageEvent(0xDE00)] && |events| == 3
  {
    var text := Utf16("\U{1F600}");
    assert text == [0xD83D, 0xDE00];
    StreamShape(ChatResponse(Some(Generation(Some(Some(text)))), usage));
  }

  /** An empty answer: asyncChat streams "No content received", syncChat
      answers 200 with "Empty response"; neither counts as answered. */
  lemma EmptyAnswerResponses(resp: ChatResponse)
    requires resp.ChatResponse? && resp.result.Some? && resp.result.value.output == Some(Some([]))
    ensures AsyncEvents(Success(resp)) == [ErrorEvent(NoContentReceived)]
    ensures SyncResult(Success(resp)) == SyncResponse(200, Error(EmptyResponse))
    ensures AsyncCompletion(Success(resp)) == EmptyAnswer == SyncCompletion(Success(resp))
  {
  }

  /** An output whose text is null: both endpoints fail with the
      NullPointerException, asyncChat as its error event, syncChat as a 500,
      and both count the request as failed, not as an empty answer. */
  lemma NullTextFails(resp: ChatResponse)
    requires resp.ChatResponse? && resp.result.Some? && resp.result.value.output == Some(None)
    ensures AsyncEvents(Success(resp)) == [ErrorEvent(ExceptionText(NullPointer))]
    ensures SyncResult(Success(resp)) == SyncResponse(500, Error(ExceptionText(NullPointer)))
    ensures AsyncCompletion(Success(resp)) == Failed(NullPointer) == SyncCompletion(Success(resp))
  {
  }

  /** syncChat answers 200 exactly when it read an answer (a missing result
      reads as empty); its body carries the answer exactly when that answer
      is non-empty, and then with the usage or an empty map. */
  lemma SyncStatus(outcome: Result<ChatResponse, JavaException>)
    ensures SyncResult(outcome).status == 200 <==> outcome.Success? && SyncContent(outcome.value).Success?
    ensures SyncResult(outcome).status == 500 <==> SyncCompletion(outcome).Failed?
    ensures SyncResult(outcome).body.Answer? <==> SyncCompletion(outcome) == Answered
    ensures SyncResult(outcome).body.Answer? ==>
              SyncResult(outcome).body.content == SyncContent(outcome.value).value
              && |SyncResult(outcome).body.content| > 0
  {
  }

  /** Where syncChat reads an answer, asyncChat reads the same text; where
      asyncChat's read throws, so does syncChat's. */
  lemma SyncAndAsyncReadTheSameAnswer(resp: ChatResponse)
    ensures SyncContent(resp).Success? ==> AsyncContent(resp) == SyncContent(resp)
    ensures AsyncContent(resp).Failure? ==> SyncContent(resp) == AsyncContent(resp)
  {
  }
}
