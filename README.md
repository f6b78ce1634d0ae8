# poop-mcp-client chat gateway, modelled in Dafny

This project models the coordination logic of the poop-mcp-client Spring
service. The model covers five things:

- How the chat controller turns one chat request into one prompt: the DeepSeek override, the tool-only or contextual mode, the defaults, the reordered chat history, the vector-context gate, the four template parameters and the tool attachment.
- How the model's answer becomes asyncChat's event stream or syncChat's JSON body.
- The three request counters and the periodic metrics report.
- The fail-fast shutdowns, and the lazily filled tool-callback cache with its ping.
- The knowledge-base controller's upload, delete and query against a document store.

Every collaborator is an input to the operation that uses it:

- the chat-history service (a list of records, or the exception it throws);
- the vector store seen by the chat controller (a list of passages);
- the system-prompt template service;
- the tool provider;
- the chat model (its response or its exception);
- Tika reading and token splitting (a function from a file URL to its chunks).

A "lookup log" records which context collaborators a request asked, and with what arguments. The knowledge-base store is a class holding its documents and a log of the calls made to it.

Files, one module each:

- `wrappers.dfy` holds Option and Result.
- `java_lang.dfy` holds the Java and hutool string behaviour the controllers rely on:
  - `trim`, `indexOf`, `split` and `String.join`;
  - `StrUtil.isBlank`;
  - `equalsIgnoreCase`;
  - UTF-16 code units;
  - exceptions.
- `chat_history.dfy` holds useChatHistory.
- `prompt_assembly.dfy` holds the request shaping.
- `response_packaging.dfy` holds the events and the sync body.
- `client_ip.dfy` holds getClientIP.
- `lifecycle.dfy` holds the process state: running, or shutting down with an exit status.
- `tool_callbacks.dfy` holds ToolCallbackService.
- `inference_controller.dfy` holds the controller class with its counters.
- `knowledge_base.dfy` holds KnowledgeBaseController and the store.

Five behaviours of the code are easy to misread. The model follows the code in the first four. In the fifth, the model follows the code's evident intent, for a reason outside the repository:

- **Streamed units.** asyncChat streams one event per UTF-16 code unit (`content.chars()`), not per code point. A character outside the Basic Multilingual Plane becomes two events, one per surrogate (`SupplementaryCharacterSplits`).
- **Pending counter.** The in-flight counter is not decremented on the two empty-answer returns, so it does not always return to its earlier value.
- **Null onlyTool.** A null `onlyTool` selects the tool-only branch. The `enableTool || onlyTool` test then throws a NullPointerException unless `enableTool` is true.
- **Null request body.** In syncChat the counters are incremented before the body is checked for null. Under the DeepSeek model, the null dereference happens outside the try block and escapes.
- **Null usage.** A null usage streams the "No metadata available" marker, as the code intends. The streaming library would reject the null value (see "## Left out").

## Model

| member | source | states |
|---|---|---|
| `JavaLang.Trim` | src/main/java/com/alienpoop/poopmcpclient/controller/InferenceController.java:635 | the result is a contiguous part of the input, with only trimmable characters (≤ U+0020) cut from either end, and it neither starts nor ends with one |
| `JavaLang.IndexOf` | src/main/java/com/alienpoop/poopmcpclient/controller/InferenceController.java:633 | -1 exactly when the character is absent; otherwise the first position holding it |
| `JavaLang.DropTrailingEmpty` | src/main/java/com/alienpoop/poopmcpclient/controller/KnowledgeBaseController.java:69 | split's removal of trailing empty strings: a prefix of the pieces whose last element is non-empty, having dropped only empty strings |
| `JavaLang.JoinPieces` | src/main/java/com/alienpoop/poopmcpclient/controller/KnowledgeBaseController.java:69 | joining the pieces of a string with the separator gives the string back |
| `JavaLang.SplitOfJoin` | src/main/java/com/alienpoop/poopmcpclient/controller/KnowledgeBaseController.java:69 | splitting the join of separator-free parts whose last part is non-empty gives the parts back |
| `JavaLang.FirstPiece` | src/main/java/com/alienpoop/poopmcpclient/controller/InferenceController.java:633-635 | the first split piece is the text before the first separator, or the whole string when there is none |
| `JavaLang.Utf16` | src/main/java/com/alienpoop/poopmcpclient/controller/InferenceController.java:166-167 | the code-unit length is the character count plus one for each supplementary character |
| `JavaLang.Utf16WithinBmp` | src/main/java/com/alienpoop/poopmcpclient/controller/InferenceController.java:166-167 | a text without supplementary characters has exactly one code unit per character, equal to it |
| `ChatHistory.Reversed` | src/main/java/com/alienpoop/poopmcpclient/controller/InferenceController.java:583 | element k of the result is element n-1-k of the input |
| `ChatHistory.SwapPairs` | src/main/java/com/alienpoop/poopmcpclient/controller/InferenceController.java:594-602 | the result has ⌊n/2⌋·2 lines, and line k is input line k+1 (k even) or k-1 (k odd) |
| `ChatHistory.ReverseInPlace` | src/main/java/com/alienpoop/poopmcpclient/controller/InferenceController.java:583 | Collections.reverse: the array afterwards is the reverse of its old content |
| `ChatHistory.UseChatHistory` | src/main/java/com/alienpoop/poopmcpclient/controller/InferenceController.java:583-604 | the text is the records reversed, rendered `type:textContent` (null as "null"), adjacent pairs swapped, joined by "\n" |
| `ChatHistory.HistoryLineAt` | src/main/java/com/alienpoop/poopmcpclient/controller/InferenceController.java:583-602 | line k renders raw record n-2-k for even k and n-k for odd k |
| `ChatHistory.HistoryOfFourRecords` | src/main/java/com/alienpoop/poopmcpclient/controller/InferenceController.java:583-602 | newest-first records A, B, C, D give the lines C, D, A, B |
| `ChatHistory.OddHistoryDropsNewest` | src/main/java/com/alienpoop/poopmcpclient/controller/InferenceController.java:594-602 | with an odd number of records the lines are those of the records without the newest one: n-1 lines |
| `PromptAssembly.UseVectorStore` | src/main/java/com/alienpoop/poopmcpclient/controller/InferenceController.java:547-566 | a null flag throws; false gives "" with no store lookup; true makes one lookup with the assistant filter and the query, and gives the passages joined by "\n" or the store's exception |
| `PromptAssembly.ToolsRequested` | src/main/java/com/alienpoop/poopmcpclient/controller/InferenceController.java:141-142 | true exactly when enableTool is true, or false with onlyTool true; false exactly when both are false; a NullPointerException exactly when an operand it reaches is null |
| `PromptAssembly.ToolOnlyPrompt` | src/main/java/com/alienpoop/poopmcpclient/controller/InferenceController.java:136-139 | unless onlyTool is exactly false, the prompt is one user message holding the raw textContent and no collaborator is asked |
| `PromptAssembly.ContextualPrompt` | src/main/java/com/alienpoop/poopmcpclient/controller/InferenceController.java:109-135 | with onlyTool false, one system message with context, chatHistory, customSystemPrompt and userText; defaults "default_session", "default_user" and ""; history (page size 30), then vector store, then template |
| `PromptAssembly.VectorStoreAskedOnlyWhenEnabled` | src/main/java/com/alienpoop/poopmcpclient/controller/InferenceController.java:123-124 | the vector store is never asked unless enableVectorStore is true |
| `PromptAssembly.OneMessage` | src/main/java/com/alienpoop/poopmcpclient/controller/InferenceController.java:107-139 | a successful assembly is exactly one message, a user message exactly in tool-only mode |
| `PromptAssembly.DeepSeekNeverAttachesTools` | src/main/java/com/alienpoop/poopmcpclient/controller/InferenceController.java:91-94 | under deepseek-r1:32b the history is always asked first and the tools are never attached |
| `PromptAssembly.NullOnlyToolThrows` | src/main/java/com/alienpoop/poopmcpclient/controller/InferenceController.java:109-142 | under any other model a null onlyTool with enableTool not true throws before any lookup |
| `PromptAssembly.EmptyRequestThrows` | src/main/java/com/alienpoop/poopmcpclient/dto/AiMessageParams.java:6-15 | a body setting no field throws under any model but DeepSeek: enableVectorStore defaults to false, and the tool flags, which the DTO does not declare, are taken as null |
| `ResponsePackaging.ContentEvents` | src/main/java/com/alienpoop/poopmcpclient/controller/InferenceController.java:166-183 | one "message" event per code unit, in order |
| `ResponsePackaging.StreamShape` | src/main/java/com/alienpoop/poopmcpclient/controller/InferenceController.java:153-209 | a non-empty answer of n units streams as n message events then one metadata event (usage, or "No metadata available"); the stream is the single "No content received" error exactly when the answer is empty or missing; an output whose text is null throws at the emptiness test, and the stream is that exception's error event |
| `ResponsePackaging.MetadataOnlyLast` | src/main/java/com/alienpoop/poopmcpclient/controller/InferenceController.java:207-209 | every event but the last of a stream is a "message" |
| `ResponsePackaging.HiThereStream` | src/main/java/com/alienpoop/poopmcpclient/controller/InferenceController.java:166-209 | "hi there" streams as 8 message events, its characters in order, then the metadata event |
| `ResponsePackaging.SupplementaryCharacterSplits` | src/main/java/com/alienpoop/poopmcpclient/controller/InferenceController.java:166-167 | U+1F600 streams as two message events, 0xD83D then 0xDE00 |
| `ResponsePackaging.EmptyAnswerResponses` | src/main/java/com/alienpoop/poopmcpclient/controller/InferenceController.java:153-163 | an empty answer gives asyncChat's "No content received" event and syncChat's 200 "Empty response", neither counting as answered |
| `ResponsePackaging.NullTextFails` | src/main/java/com/alienpoop/poopmcpclient/controller/InferenceController.java:153-163 | an output whose text is null fails both endpoints with the NullPointerException (asyncChat's error event, syncChat's 500), counted as failed so pending is decremented |
| `ResponsePackaging.SyncStatus` | src/main/java/com/alienpoop/poopmcpclient/controller/InferenceController.java:489-527 | syncChat answers 200 exactly when it could read the answer, 500 exactly on an exception; the body carries the answer exactly when it is non-empty |
| `ResponsePackaging.SyncAndAsyncReadTheSameAnswer` | src/main/java/com/alienpoop/poopmcpclient/controller/InferenceController.java:494-497 | where syncChat reads an answer, asyncChat reads the same text; where asyncChat's read throws, so does syncChat's |
| `ClientIp.FirstForwardedIsInfix` | src/main/java/com/alienpoop/poopmcpclient/controller/InferenceController.java:633-636 | the first forwarded address contains no comma and lies inside the header value |
| `ClientIp.ForwardedForWins` | src/main/java/com/alienpoop/poopmcpclient/controller/InferenceController.java:630-638 | a usable X-Forwarded-For decides alone: its first comma-separated piece trimmed, or the whole value |
| `ClientIp.RealIpSecond` | src/main/java/com/alienpoop/poopmcpclient/controller/InferenceController.java:639-642 | without a usable X-Forwarded-For, a usable X-Real-IP is returned unchanged |
| `ClientIp.RemoteAddressLast` | src/main/java/com/alienpoop/poopmcpclient/controller/InferenceController.java:643 | with neither header usable, the remote address is returned |
| `ClientIp.UpperCaseUnknownSkipped` | src/main/java/com/alienpoop/poopmcpclient/controller/InferenceController.java:631 | "UNKNOWN" is skipped like "unknown" |
| `ClientIp.KelvinSignUnknownSkipped` | src/main/java/com/alienpoop/poopmcpclient/controller/InferenceController.java:631-643 | "unknown" spelt with the Kelvin sign is skipped too (equalsIgnoreCase folds it to k) |
| `ClientIp.SingleAddressUntrimmed` | src/main/java/com/alienpoop/poopmcpclient/controller/InferenceController.java:637 | a value without a comma keeps its surrounding blanks |
| `Lifecycle.AfterExit` | src/main/java/com/alienpoop/poopmcpclient/controller/InferenceController.java:620-627 | after an exit request the process is shutting down; the first request's status is kept |
| `Lifecycle.Supervisor.Exit` | src/main/java/com/alienpoop/poopmcpclient/service/ToolCallbackService.java:45 | the state becomes AfterExit of the old state and the status |
| `ToolCallbacks.GetterAgreesWithField` | src/main/java/com/alienpoop/poopmcpclient/service/ToolCallbackService.java:25-30 | a successful get returns the field's new value; once set, later gets return it and keep it, whatever the provider would answer |
| `ToolCallbacks.ToolCallbackService.GetFunctionCallbackList` | src/main/java/com/alienpoop/poopmcpclient/service/ToolCallbackService.java:25-30 | the cached list if there is one, else the provider's answer, which is stored; a provider exception propagates and leaves the field null |
| `ToolCallbacks.ToolCallbackService.Ping` | src/main/java/com/alienpoop/poopmcpclient/service/ToolCallbackService.java:34-47 | a failing provider requests exit status 500; a successful ping changes nothing, the cache included |
| `ToolCallbacks.GetTwice` | src/main/java/com/alienpoop/poopmcpclient/service/ToolCallbackService.java:26-29 | two gets in a row return the same list when the first succeeds |
| `InferenceController.InferenceController.constructor` | src/main/java/com/alienpoop/poopmcpclient/controller/InferenceController.java:73-75 | the three counters start at zero |
| `InferenceController.InferenceController.CallModel` | src/main/java/com/alienpoop/poopmcpclient/controller/InferenceController.java:107-150 | the prompt sent and the outcome are those of RunExchange; the tool cache is touched only when the tools are asked for |
| `InferenceController.InferenceController.AsyncChat` | src/main/java/com/alienpoop/poopmcpclient/controller/InferenceController.java:77-227 | a null body gives one "Invalid input" event and nothing else changes; otherwise each counter goes up by one, the events are those of the answer or the exception, pending comes back down except on an empty answer or an unfinished stream, and an interrupted cause shuts down with status 1 |
| `InferenceController.InferenceController.SyncChat` | src/main/java/com/alienpoop/poopmcpclient/controller/InferenceController.java:422-527 | each counter goes up by one; a null body escapes under DeepSeek and is a 500 otherwise; the response is that of the answer or the exception; pending stays raised on an empty answer and on the DeepSeek null-body escape, and comes back down otherwise; there is no shutdown |
| `InferenceController.InferenceController.LogRequestMetrics` | src/main/java/com/alienpoop/poopmcpclient/controller/InferenceController.java:530-541 | reports total, per-period and pending, resets only the per-period count |
| `InferenceController.ToolsSentIffRequested` | src/main/java/com/alienpoop/poopmcpclient/controller/InferenceController.java:141-147 | the model gets the tool callbacks exactly when enableTool or onlyTool holds after the override, and the provider is asked only then |
| `InferenceController.ModelCalledIffPreparationSucceeds` | src/main/java/com/alienpoop/poopmcpclient/controller/InferenceController.java:105-150 | the model is called exactly when the assembly, the tool flags and the tool provider all succeed; otherwise the first exception is the outcome |
| `InferenceController.ToolProviderFailureIsReported` | src/main/java/com/alienpoop/poopmcpclient/controller/InferenceController.java:217-227 | a failing tool provider is reported as the error event / 500 and the pending increment is undone |
| `InferenceController.TwoRequests` | src/main/java/com/alienpoop/poopmcpclient/controller/InferenceController.java:99-215 | an answered, completed request and an empty-answer request leave two counted and one pending |
| `KnowledgeBase.VectorStore.SimilaritySearch` | src/main/java/com/alienpoop/poopmcpclient/controller/KnowledgeBaseController.java:55-58 | the first topK documents passing the filter, in store order; the search is logged |
| `KnowledgeBase.VectorStore.Delete` | src/main/java/com/alienpoop/poopmcpclient/controller/KnowledgeBaseController.java:60-63 | every document whose id is listed is removed, the others stay in order |
| `KnowledgeBase.VectorStore.Add` | src/main/java/com/alienpoop/poopmcpclient/controller/KnowledgeBaseController.java:98-101 | the chunks are appended |
| `KnowledgeBase.GatherChunks` | src/main/java/com/alienpoop/poopmcpclient/controller/KnowledgeBaseController.java:66-85 | the chunks of the non-blank URLs, in order; the first reader exception ends the loop |
| `KnowledgeBase.CollectionStopsAtFailure` | src/main/java/com/alienpoop/poopmcpclient/controller/KnowledgeBaseController.java:70-85 | an exception while reading a URL is the result of the whole loop |
| `KnowledgeBase.TagWithAssistant` | src/main/java/com/alienpoop/poopmcpclient/controller/KnowledgeBaseController.java:87-89 | every chunk's metadata gets assistantId set, nothing else changes |
| `KnowledgeBase.TaggedBelongToAssistant` | src/main/java/com/alienpoop/poopmcpclient/controller/KnowledgeBaseController.java:87-89 | every tagged chunk passes the assistant filter and keeps its id and text |
| `KnowledgeBase.KnowledgeBaseController.UploadDocument` | src/main/java/com/alienpoop/poopmcpclient/controller/KnowledgeBaseController.java:43-115 | the store and its call log end as UploadEffect says, and so does the response |
| `KnowledgeBase.KnowledgeBaseController.DeleteDocument` | src/main/java/com/alienpoop/poopmcpclient/controller/KnowledgeBaseController.java:117-143 | the found ids are deleted and the call is always made |
| `KnowledgeBase.KnowledgeBaseController.QueryDocuments` | src/main/java/com/alienpoop/poopmcpclient/controller/KnowledgeBaseController.java:145-207 | the store is unchanged; the one search made, if any, and the response are those of QueryEffect |
| `KnowledgeBase.UploadReplaces` | src/main/java/com/alienpoop/poopmcpclient/controller/KnowledgeBaseController.java:49-101 | with at most 1000 documents of the assistant, after a successful upload the assistant's documents are exactly the new tagged chunks; other documents stay |
| `KnowledgeBase.UploadCallsOnlyWhenNeeded` | src/main/java/com/alienpoop/poopmcpclient/controller/KnowledgeBaseController.java:55-101 | the search (topK 1000) comes first; delete is called exactly when documents were found, add only with at least one chunk |
| `KnowledgeBase.NullFileUrlFailsAfterDelete` | src/main/java/com/alienpoop/poopmcpclient/controller/KnowledgeBaseController.java:60-69 | a null fileURL fails the upload after the old documents were deleted, and nothing is added |
| `KnowledgeBase.BlankUrlsNotRead` | src/main/java/com/alienpoop/poopmcpclient/controller/KnowledgeBaseController.java:70-81 | blank URLs are never read |
| `KnowledgeBase.TwoFilesAndABlank` | src/main/java/com/alienpoop/poopmcpclient/controller/KnowledgeBaseController.java:69-85 | the URLs a, blank, b give a's chunks followed by b's |
| `KnowledgeBase.DeleteAlwaysCalls` | src/main/java/com/alienpoop/poopmcpclient/controller/KnowledgeBaseController.java:127-134 | delete is called with the found ids even when there are none; with at most 1000, no document of the assistant remains |
| `KnowledgeBase.BlankQueryReturnsNothing` | src/main/java/com/alienpoop/poopmcpclient/controller/KnowledgeBaseController.java:153-169 | blank query and blank assistant id: success, no results, no search |
| `KnowledgeBase.EmptyQueryRequestReturnsNothing` | src/main/java/com/alienpoop/poopmcpclient/controller/KnowledgeBaseController.java:36-41 | a body setting nothing asks for topK 5 and gets an empty result |
| `KnowledgeBase.QueryPlanCases` | src/main/java/com/alienpoop/poopmcpclient/controller/KnowledgeBaseController.java:150-179 | a search is made exactly when topK is not negative and the query or the assistant id is non-blank; it carries the query or "", the filter exactly when the assistant id is non-blank |
| `KnowledgeBase.QueryResultsFollowStore` | src/main/java/com/alienpoop/poopmcpclient/controller/KnowledgeBaseController.java:183-201 | results follow the store's order as {id, content, metadata}, at most topK, all of the assistant when one is given |

## Left out

- **HTTP and template collaborators** (useChatHistory's request, getSystemPromptTemplate): no HTTP, no JSON parsing. The records and the template text are inputs, and the template is not rendered: the system message carries the template and its four parameters.
- **The chat model, ChatClient, OllamaOptions and the tool callback objects**: these are foreign calls. The model's response or exception is an input, and a callback is its name.
- **JSON serialisation and its error branches**: ObjectMapper is not modelled. Events and bodies are datatypes, and an exception's message is the exception itself.
- **Pacing, scheduling and atomicity**: the 50 ms delay, the Flux machinery, the LongAdder/AtomicLong atomicity and the @Scheduled timing are concurrency and timing concerns. Whether the client lets the stream finish is an input of AsyncChat.
- **Reactor's `Flux.just` and a null usage**: Reactor refuses a null element, which would turn the null-usage case into an error event. This library behaviour is outside the repository. The model follows the code's evident intent, the "No metadata available" marker.
- **System.exit, context.close(), StopWatch and logging**: exits are transitions of the process state. Lifecycle.AfterExit keeps the status as given: the operating system's truncation of 500 to an 8-bit status is not modelled. System.exit never returns, so once AsyncChat leaves the process ShuttingDown, the error event its contract names is never delivered.
- **The ping at start-up**: ping also runs once when the service is constructed (@PostConstruct), so a failing provider ends the process at start-up. The ToolCallbackService constructor does not model that first ping; a Ping call right after construction models it.
- **The commented-out streaming variant and the `main` demo of InferenceController**: neither runs; one is dead code and the other a demo.
- **Similarity ranking, query text and threshold**: the store is modelled without similarity. A search returns the documents that pass its filter, in store order, at most topK. The 0.5 threshold is recorded in the search request without effect. The vector context of a chat is an input. A VectorLookup records neither that request's threshold 0 nor its default topK of 4, so the model puts no bound on the number of passages.
- **Tika reading and TokenTextSplitter**: these form one input function from a URL to its chunks or an exception.
- **Store exceptions**: the document store is modelled without failures, so the 500 answers of upload, delete and query arise only from the reader, a null fileURL and a negative topK.
- **A negative topK**: the Spring AI request builder rejects it ("TopK should be positive."). The model takes that library behaviour as given and answers 500.
- **A null assistantId on upload**: the request's assistantId is a non-null string in the model. What the filter builder and `Map.of` do with null is library behaviour.
- **Java object identity**: chunks are values, and tagging builds new values rather than mutating shared metadata maps.
- **AiMessageParams**: the DTO declares no enableTool/onlyTool fields, although the controller uses them. The model adds them as nullable booleans and assumes they default to null. This assumption is what EmptyRequestThrows rests on: with a false default, a body setting nothing would take the contextual branch, without tools. enableAgent and userId are not read by the core.
