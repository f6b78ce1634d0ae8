/**
 * InferenceController.useChatHistory: the history service answers with the
 * session's records newest first; the controller reverses them in place,
 * renders each as `type:textContent`, swaps every adjacent pair of lines
 * (dropping an unpaired last line) and joins the lines with "\n".
 * The HTTP fetch itself is not modelled: the records are an input.
 */
module ChatHistory {
  import opened Wrappers
  import opened JavaLang

  /** One JSON record of the history page; either field may be missing. */
  datatype HistoryRecord = HistoryRecord(kind: Option<string>, textContent: Option<string>)

  /** The page size the controllers ask for. */
  const HistoryPageSize: int := 30

  /** Java string concatenation writes a null reference as "null". */
  function ShowNullable(s: Option<string>): string {
    if s.Some? then s.value else "null"
  }

  /** `i.getStr("type") + ":" + i.getStr("textContent")` */
  function Render(r: HistoryRecord): string {
    ShowNullable(r.kind) + ":" + ShowNullable(r.textContent)
  }

  function RenderAll(rs: seq<HistoryRecord>): seq<string> {
    seq(|rs|, k requires 0 <= k < |rs| => Render(rs[k]))
  }

  /** The order Collections.reverse leaves a list in. */
  function Reversed<T>(s: seq<T>): (r: seq<T>)
    ensures |r| == |s|
    ensures forall k :: 0 <= k < |s| ==> r[k] == s[|s| - 1 - k]
  {
    if s == [] then [] else Reversed(s[1..]) + [s[0]]
  }

  /** The IntStream over pair indices: lines 2i+1, 2i for every full pair;
      an unpaired last line is not emitted. */
  function SwapPairs(lines: seq<string>): (r: seq<string>)
    ensures |r| == |lines| / 2 * 2
    ensures forall k :: 0 <= k < |r| ==> r[k] == lines[if k % 2 == 0 then k + 1 else k - 1]
  {
    if |lines| < 2 then [] else [lines[1], lines[0]] + SwapPairs(lines[2..])
  }

  /** The lines of the history block, before joining. */
  function HistoryLines(raw: seq<HistoryRecord>): seq<string> {
    SwapPairs(RenderAll(Reversed(raw)))
  }

  /** The chat-history text that goes into the system prompt. */
  function HistoryText(raw: seq<HistoryRecord>): string {
    Join(HistoryLines(raw), '\n')
  }

  /** Collections.reverse on the record list, done in place. */
  method ReverseInPlace<T>(a: array<T>)
    modifies a
    ensures a[..] == Reversed(old(a[..]))
  {
    var lo, hi := 0, a.Length - 1;
    while lo < hi
      invariant 0 <= lo <= a.Length && -1 <= hi < a.Length && lo + hi == a.Length - 1
      invariant forall k :: 0 <= k < lo || hi < k < a.Length ==> a[k] == old(a[a.Length - 1 - k])
      invariant forall k :: lo <= k <= hi ==> a[k] == old(a[k])
    {
      a[lo], a[hi] := a[hi], a[lo];
      lo, hi := lo + 1, hi - 1;
    }
  }

  /** useChatHistory once the page has arrived: it yields exactly the
      history text defined above. */
  method UseChatHistory(records: seq<HistoryRecord>) returns (text: string)
    ensures text == HistoryText(records)
  {
    var a := new HistoryRecord[|records|](k requires 0 <= k < |records| => records[k]);
    assert a[..] == records;
    ReverseInPlace(a);
    var chatMemoryList := RenderAll(a[..]);
    var swapped := SwapPairs(chatMemoryList);
    text := Join(swapped, '\n');
  }

  /** Line k of the history is the record at position n-2-k (k even) or
      n-k (k odd) of the newest-first page: each pair comes out older
      record second, and pairs run from oldest to newest. */
  lemma HistoryLineAt(raw: seq<HistoryRecord>, k: nat)
    requires k < |raw| / 2 * 2
    ensures |HistoryLines(raw)| == |raw| / 2 * 2
    ensures HistoryLines(raw)[k] == Render(raw[if k % 2 == 0 then |raw| - 2 - k else |raw| - k])
  {
  }

  /** A newest-first page [A, B, C, D] gives the lines C, D, A, B. */
  lemma HistoryOfFourRecords(a: HistoryRecord, b: HistoryRecord, c: HistoryRecord, d: HistoryRecord)
    ensures HistoryLines([a, b, c, d]) == [Render(c), Render(d), Render(a), Render(b)]
  {
    var lines := HistoryLines([a, b, c, d]);
    HistoryLineAt([a, b, c, d], 0);
    HistoryLineAt([a, b, c, d], 1);
    HistoryLineAt([a, b, c, d], 2);
    HistoryLineAt([a, b, c, d], 3);
  }

  /** With an odd number of records the newest one, raw[0], is dropped:
      the history is that of the remaining records. */
  lemma {:induction false} OddHistoryDropsNewest(raw: seq<HistoryRecord>)
    requires |raw| % 2 == 1
    ensures |HistoryLines(raw)| == |raw| - 1
    ensures HistoryLines(raw) == HistoryLines(raw[1..])
  {
    var lines, rest := HistoryLines(raw), HistoryLines(raw[1..]);
    assert |lines| == |rest|;
    forall k | 0 <= k < |lines| ensures lines[k] == rest[k] {
      HistoryLineAt(raw, k);
      HistoryLineAt(raw[1..], k);
    }
  }
}
