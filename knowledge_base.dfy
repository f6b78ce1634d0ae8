/**
 * KnowledgeBaseController: replacing an assistant's documents, deleting
 * them, and querying the store. The vector store is a list of documents
 * with a log of the calls made to it. Similarity is not modelled: a search
 * returns the documents that pass its filter, in store order, at most topK
 * of them. Reading a file with Tika and cutting it into chunks is an input
 * function from a file URL to its chunks (or the exception it throws).
 */
module KnowledgeBase {
  import opened Wrappers
  import opened JavaLang

  /** A stored document: its id, its text and its metadata map. */
  datatype Document = Document(id: string, text: string, metadata: map<string, string>)

  /** The metadata key under which a chunk's owner is stored. */
  const AssistantIdKey: string := "assistantId"

  /** `eq("assistantId", id)`, the only filter expression the controller builds. */
  datatype Filter = AssistantIs(assistantId: string)

  predicate Passes(d: Document, filter: Option<Filter>) {
    filter.None? || (AssistantIdKey in d.metadata && d.metadata[AssistantIdKey] == filter.value.assistantId)
  }

  /** A search request; the query is "" and the threshold 0.0 (accept all)
      unless the builder sets them. */
  datatype SearchRequest = SearchRequest(query: string, topK: int, threshold: real, filter: Option<Filter>)

  /** A call made to the store. */
  datatype StoreCall =
    | SearchCall(request: SearchRequest)
    | DeleteCall(ids: seq<string>)
    | AddCall(docs: seq<Document>)

  /** The documents that pass the filter, in store order. */
  function Matching(docs: seq<Document>, filter: Option<Filter>): (r: seq<Document>)
    ensures |r| <= |docs|
    ensures forall d :: d in r <==> d in docs && Passes(d, filter)
  {
    if |docs| == 0 then []
    else
      var last := docs[|docs| - 1];
      assert docs == docs[..|docs| - 1] + [last];
      Matching(docs[..|docs| - 1], filter) + (if Passes(last, filter) then [last] else [])
  }

  /** What a search returns: the first topK documents that pass its filter. */
  function SearchResult(docs: seq<Document>, request: SearchRequest): (r: seq<Document>)
    requires request.topK >= 0
  {
    var m := Matching(docs, request.filter);
    if |m| <= request.topK then m else m[..request.topK]
  }

  /** The documents whose id is not in `ids`, in store order. */
  function RemoveIds(docs: seq<Document>, ids: seq<string>): (r: seq<Document>)
    ensures |r| <= |docs|
    ensures forall d :: d in r <==> d in docs && d.id !in ids
  {
    if |docs| == 0 then []
    else
      var last := docs[|docs| - 1];
      assert docs == docs[..|docs| - 1] + [last];
      RemoveIds(docs[..|docs| - 1], ids) + (if last.id in ids then [] else [last])
  }

  function Ids(docs: seq<Document>): (r: seq<string>)
    ensures |r| == |docs| && forall i :: 0 <= i < |docs| ==> r[i] == docs[i].id
  {
    seq(|docs|, i requires 0 <= i < |docs| => docs[i].id)
  }

  /** The store, changed in place by delete and add. */
  class VectorStore {
    var docs: seq<Document>
    var calls: seq<StoreCall>

    constructor (docs: seq<Document>)
      ensures this.docs == docs && calls == []
    {
      this.docs := docs;
      calls := [];
    }

    method SimilaritySearch(request: SearchRequest) returns (found: seq<Document>)
      requires request.topK >= 0
      modifies this`calls
      ensures found == SearchResult(docs, request)
      ensures calls == old(calls) + [SearchCall(request)]
    {
      var matched: seq<Document> := [];
      var i := 0;
      while i < |docs|
        invariant 0 <= i <= |docs|
        invariant matched == Matching(docs[..i], request.filter)
      {
        assert docs[..i + 1][..i] == docs[..i];
        if Passes(docs[i], request.filter) {
          matched := matched + [docs[i]];
        }
        i := i + 1;
      }
      assert docs[..i] == docs;
      found := if |matched| <= request.topK then matched else matched[..request.topK];
      calls := calls + [SearchCall(request)];
    }

    method Delete(ids: seq<string>)
      modifies this
      ensures docs == RemoveIds(old(docs), ids)
      ensures calls == old(calls) + [DeleteCall(ids)]
    {
      var kept: seq<Document> := [];
      var i := 0;
      while i < |docs|
        invariant 0 <= i <= |docs|
        invariant kept == RemoveIds(docs[..i], ids)
      {
        assert docs[..i + 1][..i] == docs[..i];
        if docs[i].id !in ids {
          kept := kept + [docs[i]];
        }
        i := i + 1;
      }
      assert docs[..i] == docs;
      docs := kept;
      calls := calls + [DeleteCall(ids)];
    }

    method Add(added: seq<Document>)
      modifies this
      ensures docs == old(docs) + added
      ensures calls == old(calls) + [AddCall(added)]
    {
      docs := docs + added;
      calls := calls + [AddCall(added)];
    }
  }

  // ---------------------------------------------------------------------------
  // Upload

  datatype UploadRequest = UploadRequest(assistantId: string, fileURL: Option<string>)

  /** The search both upload and delete make: every document of the
      assistant, at most 1000. */
  function AssistantSearch(assistantId: string): SearchRequest {
    SearchRequest("", 1000, 0.0, Some(AssistantIs(assistantId)))
  }

  /** Tika reading followed by token splitting, for one file URL. */
  type ChunkReader = string -> Result<seq<Document>, JavaException>

  /** The chunks of every non-blank URL, in URL order; the first exception
      ends the collection. */
  function CollectChunks(urls: seq<string>, read: ChunkReader): Result<seq<Document>, JavaException> {
    if |urls| == 0 then Success([])
    else
      match CollectChunks(urls[..|urls| - 1], read)
      case Failure(e) => Failure(e)
      case Success(before) =>
        var url := urls[|urls| - 1];
        if IsBlank(Some(url)) then Success(before)
        else
          match read(url)
          case Failure(e) => Failure(e)
          case Success(chunks) => Success(before + chunks)
  }

  /** The loop that fills `allSplitDocuments`. */
  method GatherChunks(urls: seq<string>, read: ChunkReader) returns (r: Result<seq<Document>, JavaException>)
    ensures r == CollectChunks(urls, read)
  {
    var all: seq<Document> := [];
    var i := 0;
    while i < |urls|
      invariant 0 <= i <= |urls|
      invariant CollectChunks(urls[..i], read) == Success(all)
    {
      assert urls[..i + 1][..i] == urls[..i];
      var url := urls[i];
      if !IsBlank(Some(url)) {
        var chunks := read(url);
        if chunks.Failure? {
          assert CollectChunks(urls[..i + 1], read) == Failure(chunks.error);
          CollectionStopsAtFailure(urls, read, i + 1);
          return Failure(chunks.error);
        }
        all := all + chunks.value;
      }
      i := i + 1;
    }
    assert urls[..i] == urls;
    r := Success(all);
  }

  /** A failure in a prefix is the failure of the whole collection. */
  lemma {:induction false} CollectionStopsAtFailure(urls: seq<string>, read: ChunkReader, n: nat)
    requires n <= |urls| && CollectChunks(urls[..n], read).Failure?
    ensures CollectChunks(urls, read) == CollectChunks(urls[..n], read)
    decreases |urls| - n
  {
    if n < |urls| {
      assert urls[..n + 1][..n] == urls[..n];
      CollectionStopsAtFailure(urls, read, n + 1);
    } else {
      assert urls[..n] == urls;
    }
  }

  /** Each chunk with its metadata tagged with the assistant. */
  function Tagged(chunks: seq<Document>, assistantId: string): (r: seq<Document>)
    ensures |r| == |chunks|
  {
    seq(|chunks|, i requires 0 <= i < |chunks| =>
      chunks[i].(metadata := chunks[i].metadata[AssistantIdKey := assistantId]))
  }

  /** The loop that writes the assistant id into every chunk's metadata. */
  method TagWithAssistant(chunks: seq<Document>, assistantId: string) returns (r: seq<Document>)
    ensures r == Tagged(chunks, assistantId)
  {
    r := chunks;
    var i := 0;
    while i < |r|
      invariant 0 <= i <= |r| == |chunks|
      invariant forall k :: 0 <= k < i ==> r[k] == chunks[k].(metadata := chunks[k].metadata[AssistantIdKey := assistantId])
      invariant r[i..] == chunks[i..]
    {
      assert r[i] == chunks[i..][0];
      r := r[i := r[i].(metadata := r[i].metadata[AssistantIdKey := assistantId])];
      i := i + 1;
    }
  }

  /** The controller's answer: a success map or the 500 error map. */
  datatype Operation = Upload | Delete | Query
  datatype ResultEntry = ResultEntry(id: string, content: string, metadata: map<string, string>)
  datatype KbResponse =
    | UploadSucceeded(assistantId: string)
    | DeleteSucceeded
    | QueryResults(results: seq<ResultEntry>)
    | Failed(operation: Operation, e: JavaException)   // status 500, "Failed to ... document(s): " + message

  /** What an operation leaves behind: the store's documents, the calls it
      made, and the response. */
  datatype Effect = Effect(docs: seq<Document>, calls: seq<StoreCall>, response: KbResponse)

  /** uploadDocument on a store holding `docs`. */
  function UploadEffect(docs: seq<Document>, request: UploadRequest, read: ChunkReader): Effect {
    var search := AssistantSearch(request.assistantId);
    var ids := Ids(SearchResult(docs, search));
    var kept := if |ids| > 0 then RemoveIds(docs, ids) else docs;
    var cleared := [SearchCall(search)] + (if |ids| > 0 then [DeleteCall(ids)] else []);
    if request.fileURL.None? then Effect(kept, cleared, Failed(Upload, NullPointer))
    else
      match CollectChunks(Split(request.fileURL.value, ','), read)
      case Failure(e) => Effect(kept, cleared, Failed(Upload, e))
      case Success(chunks) =>
        var tagged := Tagged(chunks, request.assistantId);
        if |tagged| == 0 then Effect(kept, cleared, UploadSucceeded(request.assistantId))
        else Effect(kept + tagged, cleared + [AddCall(tagged)], UploadSucceeded(request.assistantId))
  }

  /** deleteDocument on a store holding `docs`. */
  function DeleteEffect(docs: seq<Document>, assistantId: string): Effect {
    var search := AssistantSearch(assistantId);
    var ids := Ids(SearchResult(docs, search));
    Effect(RemoveIds(docs, ids), [SearchCall(search), DeleteCall(ids)], DeleteSucceeded)
  }

  // ---------------------------------------------------------------------------
  // Query

  datatype QueryRequest = QueryRequest(query: Option<string>, assistantId: Option<string>, topK: int)

  /** The value of a body that sets no field: topK has the initialiser 5. */
  const DefaultTopK: int := 5

  function EmptyQueryRequest(): QueryRequest {
    QueryRequest(None, None, DefaultTopK)
  }

  /** The similarity threshold every query uses. */
  const QueryThreshold: real := 0.5

  /** What queryDocuments decides before the store is asked. */
  datatype QueryPlan = Rejected(e: JavaException) | NoSearch | Search(request: SearchRequest)

  /** A negative topK is refused by the request builder. A non-blank query
      is searched for; with a blank query, a non-blank assistant id alone
      still searches; with both blank nothing is searched. The assistant
      filter is added exactly when the assistant id is non-blank. */
  function PlanQuery(r: QueryRequest): (plan: QueryPlan)
    ensures plan.Search? ==> plan.request.topK == r.topK >= 0 && plan.request.threshold == QueryThreshold
  {
    if r.topK < 0 then Rejected(Raised("TopK should be positive.", false))
    else
      var filter := if !IsBlank(r.assistantId) then Some(AssistantIs(r.assistantId.value)) else None;
      if !IsBlank(r.query) then Search(SearchRequest(r.query.value, r.topK, QueryThreshold, filter))
      else if !IsBlank(r.assistantId) then Search(SearchRequest("", r.topK, QueryThreshold, filter))
      else NoSearch
  }

  function ResultEntries(docs: seq<Document>): (r: seq<ResultEntry>)
    ensures |r| == |docs|
    ensures forall i :: 0 <= i < |docs| ==> r[i] == ResultEntry(docs[i].id, docs[i].text, docs[i].metadata)
  {
    seq(|docs|, i requires 0 <= i < |docs| => ResultEntry(docs[i].id, docs[i].text, docs[i].metadata))
  }

  /** queryDocuments on a store holding `docs`; the store is never changed. */
  function QueryEffect(docs: seq<Document>, request: QueryRequest): Effect {
    match PlanQuery(request)
    case Rejected(e) => Effect(docs, [], Failed(Query, e))
    case NoSearch => Effect(docs, [], QueryResults([]))
    case Search(search) => Effect(docs, [SearchCall(search)], QueryResults(ResultEntries(SearchResult(docs, search))))
  }

  class KnowledgeBaseController {
    const store: VectorStore

    constructor (store: VectorStore)
      ensures this.store == store
    {
      this.store := store;
    }

    /** Replaces the assistant's documents by the chunks of the listed files. */
    method UploadDocument(request: UploadRequest, read: ChunkReader) returns (response: KbResponse)
      modifies store
      ensures var e := UploadEffect(old(store.docs), request, read);
        store.docs == e.docs && store.calls == old(store.calls) + e.calls && response == e.response
    {
      var found := store.SimilaritySearch(AssistantSearch(request.assistantId));
      var deleteIds := Ids(found);
      if |deleteIds| > 0 {
        store.Delete(deleteIds);
      }
      if request.fileURL.None? {
        return Failed(Upload, NullPointer);
      }
      var chunks := GatherChunks(Split(request.fileURL.value, ','), read);
      if chunks.Failure? {
        return Failed(Upload, chunks.error);
      }
      var tagged := TagWithAssistant(chunks.value, request.assistantId);
      if |tagged| > 0 {
        store.Add(tagged);
      }
      response := UploadSucceeded(request.assistantId);
    }

    method DeleteDocument(assistantId: string) returns (response: KbResponse)
      modifies store
      ensures var e := DeleteEffect(old(store.docs), assistantId);
        store.docs == e.docs && store.calls == old(store.calls) + e.calls && response == e.response
    {
      var found := store.SimilaritySearch(AssistantSearch(assistantId));
      store.Delete(Ids(found));
      response := DeleteSucceeded;
    }

    method QueryDocuments(request: QueryRequest) returns (response: KbResponse)
      modifies store`calls
      ensures var e := QueryEffect(store.docs, request);
        store.calls == old(store.calls) + e.calls && response == e.response
    {
      var plan := PlanQuery(request);
      match plan
      case Rejected(e) =>
        response := Failed(Query, e);
      case NoSearch =>
        response := QueryResults([]);
      case Search(search) =>
        var documents := store.SimilaritySearch(search);
        response := QueryResults(ResultEntries(documents));
    }
  }

  // ---------------------------------------------------------------------------
  // Properties

  lemma {:induction false} MatchingOfConcat(a: seq<Document>, b: seq<Document>, filter: Option<Filter>)
    ensures Matching(a + b, filter) == Matching(a, filter) + Matching(b, filter)
    decreases |b|
  {
    if |b| == 0 {
      assert a + b == a;
    } else {
      var last := b[|b| - 1];
      assert (a + b)[..|a + b| - 1] == a + b[..|b| - 1];
      MatchingOfConcat(a, b[..|b| - 1], filter);
    }
  }

  lemma {:induction false} MatchingAll(docs: seq<Document>, filter: Option<Filter>)
    requires forall d :: d in docs ==> Passes(d, filter)
    ensures Matching(docs, filter) == docs
    decreases |docs|
  {
    if |docs| > 0 {
      assert docs == docs[..|docs| - 1] + [docs[|docs| - 1]];
      MatchingAll(docs[..|docs| - 1], filter);
    }
  }

  lemma {:induction false} MatchingNone(docs: seq<Document>, filter: Option<Filter>)
    requires forall d :: d in docs ==> !Passes(d, filter)
    ensures Matching(docs, filter) == []
    decreases |docs|
  {
    if |docs| > 0 {
      assert docs == docs[..|docs| - 1] + [docs[|docs| - 1]];
      MatchingNone(docs[..|docs| - 1], filter);
    }
  }

  lemma IdOfMember(docs: seq<Document>, d: Document)
    requires d in docs
    ensures d.id in Ids(docs)
  {
    var i :| 0 <= i < |docs| && docs[i] == d;
    assert Ids(docs)[i] == d.id;
  }

  /** Every tagged chunk belongs to the assistant and keeps its id and text. */
  lemma TaggedBelongToAssistant(chunks: seq<Document>, assistantId: string)
    ensures forall d :: d in Tagged(chunks, assistantId) ==> Passes(d, Some(AssistantIs(assistantId)))
    ensures Ids(Tagged(chunks, assistantId)) == Ids(chunks)
    ensures forall i :: 0 <= i < |chunks| ==> Tagged(chunks, assistantId)[i].text == chunks[i].text
  {
  }

  /** With at most 1000 documents of the assistant in the store, a
      successful upload leaves exactly the new chunks as the assistant's
      documents, tagged and in reading order; and every other document whose
      id was not among the deleted ones stays. */
  lemma UploadReplaces(docs: seq<Document>, request: UploadRequest, read: ChunkReader)
    requires |Matching(docs, Some(AssistantIs(request.assistantId)))| <= 1000
    requires UploadEffect(docs, request, read).response.UploadSucceeded?
    ensures var filter := Some(AssistantIs(request.assistantId));
      var chunks := CollectChunks(Split(request.fileURL.value, ','), read).value;
      && Matching(UploadEffect(docs, request, read).docs, filter) == Tagged(chunks, request.assistantId)
      && forall d :: d in docs && !Passes(d, filter) && d.id !in Ids(Matching(docs, filter))
                     ==> d in UploadEffect(docs, request, read).docs
  {
    var filter := Some(AssistantIs(request.assistantId));
    var old_ := Matching(docs, filter);
    var ids := Ids(SearchResult(docs, AssistantSearch(request.assistantId)));
    assert ids == Ids(old_);
    var kept := if |ids| > 0 then RemoveIds(docs, ids) else docs;
    forall d | d in docs && Passes(d, filter) ensures d.id in ids {
      IdOfMember(old_, d);
    }
    MatchingNone(kept, filter);
    var chunks := CollectChunks(Split(request.fileURL.value, ','), read).value;
    var tagged := Tagged(chunks, request.assistantId);
    TaggedBelongToAssistant(chunks, request.assistantId);
    MatchingAll(tagged, filter);
    MatchingOfConcat(kept, tagged, filter);
    assert [] + tagged == tagged;
  }

  /** Upload asks the store to delete only when it found documents, and to
      add only when the files gave at least one chunk; it always searches
      first, for at most 1000 documents of the assistant. */
  lemma UploadCallsOnlyWhenNeeded(docs: seq<Document>, request: UploadRequest, read: ChunkReader)
    ensures var e := UploadEffect(docs, request, read);
      var found := SearchResult(docs, AssistantSearch(request.assistantId));
      && e.calls[0] == SearchCall(AssistantSearch(request.assistantId))
      && AssistantSearch(request.assistantId).topK == 1000
      && (DeleteCall(Ids(found)) in e.calls <==> |found| > 0)
      && (forall c :: c in e.calls && c.AddCall? ==> |c.docs| > 0)
      && (forall c :: c in e.calls && c.DeleteCall? ==> c == DeleteCall(Ids(found)))
  {
  }

  /** A missing fileURL fails the upload after the old documents are gone. */
  lemma NullFileUrlFailsAfterDelete(docs: seq<Document>, assistantId: string, read: ChunkReader)
    ensures var e := UploadEffect(docs, UploadRequest(assistantId, None), read);
      var found := SearchResult(docs, AssistantSearch(assistantId));
      && e.response == Failed(Upload, NullPointer)
      && e.docs == (if |found| > 0 then RemoveIds(docs, Ids(found)) else docs)
      && forall c :: c in e.calls ==> !c.AddCall?
  {
  }

  /** Blank URLs are never read: two readers that agree on the non-blank
      URLs collect the same chunks. */
  lemma {:induction false} BlankUrlsNotRead(urls: seq<string>, read1: ChunkReader, read2: ChunkReader)
    requires forall u :: u in urls && !IsBlank(Some(u)) ==> read1(u) == read2(u)
    ensures CollectChunks(urls, read1) == CollectChunks(urls, read2)
    decreases |urls|
  {
    if |urls| > 0 {
      BlankUrlsNotRead(urls[..|urls| - 1], read1, read2);
    }
  }

  /** With every URL readable, the chunks are those of the non-blank URLs,
      one file after another. */
  lemma TwoFilesAndABlank(a: string, b: string, read: ChunkReader)
    requires !IsBlank(Some(a)) && !IsBlank(Some(b))
    requires read(a).Success? && read(b).Success?
    ensures CollectChunks([a, " ", b], read) == Success(read(a).value + read(b).value)
  {
    assert [a][..0] == [];
    assert CollectChunks([], read) == Success([]);
    assert [] + read(a).value == read(a).value;
    assert CollectChunks([a], read) == Success(read(a).value);
    assert [a, " "][..1] == [a];
    assert IsBlank(Some(" "));
    assert CollectChunks([a, " "], read) == Success(read(a).value);
    assert [a, " ", b][..2] == [a, " "];
  }

  /** Delete always issues the delete call, with the ids it found, even none;
      with at most 1000 documents of the assistant, none is left. */
  lemma DeleteAlwaysCalls(docs: seq<Document>, assistantId: string)
    ensures var found := SearchResult(docs, AssistantSearch(assistantId));
      DeleteEffect(docs, assistantId).calls[1] == DeleteCall(Ids(found))
    ensures |Matching(docs, Some(AssistantIs(assistantId)))| <= 1000 ==>
      forall d :: d in DeleteEffect(docs, assistantId).docs ==> !Passes(d, Some(AssistantIs(assistantId)))
  {
    var filter := Some(AssistantIs(assistantId));
    var m := Matching(docs, filter);
    if |m| <= 1000 {
      forall d | d in docs && Passes(d, filter) ensures d.id in Ids(m) {
        IdOfMember(m, d);
      }
    }
  }

  /** Both query and assistant id blank (null, empty or blank): success with
      no results and no search, for any topK that is not negative. */
  lemma BlankQueryReturnsNothing(docs: seq<Document>, request: QueryRequest)
    requires IsBlank(request.query) && IsBlank(request.assistantId) && request.topK >= 0
    ensures QueryEffect(docs, request) == Effect(docs, [], QueryResults([]))
  {
  }

  /** A body that sets nothing asks for 5 results, and returns none. */
  lemma EmptyQueryRequestReturnsNothing(docs: seq<Document>)
    ensures EmptyQueryRequest().topK == 5
    ensures QueryEffect(docs, EmptyQueryRequest()) == Effect(docs, [], QueryResults([]))
  {
  }

  /** A search is made exactly when topK is not negative and the query or
      the assistant id is non-blank; it carries the query (or ""), topK, the
      0.5 threshold, and the assistant filter exactly when the assistant id
      is non-blank. */
  lemma QueryPlanCases(request: QueryRequest)
    ensures PlanQuery(request).Search? <==>
              request.topK >= 0 && (!IsBlank(request.query) || !IsBlank(request.assistantId))
    ensures PlanQuery(request).Rejected? <==> request.topK < 0
    ensures PlanQuery(request).Search? ==>
              var s := PlanQuery(request).request;
              && s.query == (if !IsBlank(request.query) then request.query.value else "")
              && (s.filter.Some? <==> !IsBlank(request.assistantId))
              && (s.filter.Some? ==> s.filter.value.assistantId == request.assistantId.value)
  {
  }

  /** The results are the store's answer in its order, one {id, content,
      metadata} entry per document, at most topK of them, and with a
      non-blank assistant id every one belongs to that assistant. */
  lemma QueryResultsFollowStore(docs: seq<Document>, request: QueryRequest)
    requires PlanQuery(request).Search?
    ensures var found := SearchResult(docs, PlanQuery(request).request);
      var results := QueryEffect(docs, request).response.results;
      && |results| == |found| <= request.topK
      && (forall i :: 0 <= i < |found| ==> results[i] == ResultEntry(found[i].id, found[i].text, found[i].metadata))
      && (!IsBlank(request.assistantId) ==>
            forall i :: 0 <= i < |results| ==>
              AssistantIdKey in results[i].metadata && results[i].metadata[AssistantIdKey] == request.assistantId.value)
  {
    var search := PlanQuery(request).request;
    var m := Matching(docs, search.filter);
    var found := SearchResult(docs, search);
    forall i | 0 <= i < |found| ensures Passes(found[i], search.filter) {
      assert found[i] in m;
    }
  }
}
