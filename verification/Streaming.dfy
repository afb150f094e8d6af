/** The stream pipeline of internal/proxy/streaming.go: a byte-bounded rolling buffer of lines, a body
    rebuilt from content deltas up to a cap, and a fold of usage reports. Each is compared with a simple
    function of all the lines. */
module Streaming {
  import opened Prelude

  // ----- usage -----

  datatype UsageInfo = UsageInfo(prompt: int, completion: int, total: int, cached: int, cachedReported: bool)

  /** The usage object of one chunk; `details` is absent when the chunk omits prompt_tokens_details. */
  datatype UsageChunk = UsageChunk(prompt: int, completion: int, total: int, details: Option<int>)

  function MergeStreamUsage(current: Option<UsageInfo>, u: UsageChunk): UsageInfo {
    var base := if current.Some? then current.value else UsageInfo(0, 0, 0, 0, false);
    var next := base.(prompt := u.prompt, completion := u.completion, total := u.total);
    if u.details.Some? then next.(cached := u.details.value, cachedReported := true) else next
  }

  function FoldUsage(us: seq<UsageChunk>): Option<UsageInfo> {
    if us == [] then None else Some(MergeStreamUsage(FoldUsage(us[..|us| - 1]), us[|us| - 1]))
  }

  /** The latest cached-token count any chunk reported. */
  function LastDetails(us: seq<UsageChunk>): Option<int> {
    if us == [] then None
    else if us[|us| - 1].details.Some? then us[|us| - 1].details
    else LastDetails(us[..|us| - 1])
  }

  /** The counts are those of the last chunk; the cached count is the last one reported, even when later
      chunks leave it out. */
  lemma {:induction false} UsageIsLatest(us: seq<UsageChunk>)
    ensures FoldUsage(us) ==
      if us == [] then None
      else
        var last, details := us[|us| - 1], LastDetails(us);
        Some(UsageInfo(last.prompt, last.completion, last.total, OrZero(details), details.Some?))
  {
    if us != [] {
      UsageIsLatest(us[..|us| - 1]);
    }
  }

  // ----- the rolling buffer -----

  datatype Entry = Entry(raw: string, delta: string)

  /** The raw bytes of the entries from position `k` on. */
  function BytesFrom(es: seq<Entry>, k: nat): nat
    requires k <= |es|
    decreases |es| - k
  {
    if k == |es| then 0 else |es[k].raw| + BytesFrom(es, k + 1)
  }

  /** The smallest position from which everything fits, or that of the last entry if it alone does not. */
  function Cut(es: seq<Entry>, maxSize: int, k: nat): (r: nat)
    requires k <= |es|
    ensures k <= r <= |es|
    decreases |es| - k
  {
    if k + 1 >= |es| || BytesFrom(es, k) <= maxSize then k else Cut(es, maxSize, k + 1)
  }

  /** What the buffer should hold after all of `es` have been added. */
  function Window(es: seq<Entry>, maxSize: int): seq<Entry> {
    es[Cut(es, maxSize, 0)..]
  }

  lemma {:induction false} BytesFromShrinks(es: seq<Entry>, i: nat, j: nat)
    requires i <= j <= |es|
    ensures BytesFrom(es, j) <= BytesFrom(es, i)
    decreases j - i
  {
    if i < j {
      BytesFromShrinks(es, i + 1, j);
    }
  }

  lemma {:induction false} CutIsLeast(es: seq<Entry>, maxSize: int, k: nat)
    requires k <= |es|
    ensures var r := Cut(es, maxSize, k);
      && (r + 1 >= |es| || BytesFrom(es, r) <= maxSize)
      && (forall j :: k <= j < r ==> BytesFrom(es, j) > maxSize)
      && (k < |es| ==> r < |es|)
    decreases |es| - k
  {
    if !(k + 1 >= |es| || BytesFrom(es, k) <= maxSize) {
      CutIsLeast(es, maxSize, k + 1);
    }
  }

  /** The window is the longest suffix whose bytes fit, or the last line alone when nothing but it could
      be kept; and `k` is determined by that. */
  lemma WindowIsLongestFittingSuffix(es: seq<Entry>, maxSize: int, k: nat)
    requires es != [] && k < |es|
    ensures Window(es, maxSize) == es[k..] <==>
      && (BytesFrom(es, k) <= maxSize || k == |es| - 1)
      && (forall j :: 0 <= j < k ==> BytesFrom(es, j) > maxSize)
  {
    var r := Cut(es, maxSize, 0);
    CutIsLeast(es, maxSize, 0);
    assert |es[r..]| == |es| - r && |es[k..]| == |es| - k;
  }

  lemma {:induction false} BytesFromAppend(es: seq<Entry>, e: Entry, k: nat)
    requires k <= |es|
    ensures BytesFrom(es + [e], k) == BytesFrom(es, k) + |e.raw|
    decreases |es| - k
  {
    if k < |es| {
      BytesFromAppend(es, e, k + 1);
    } else {
      assert BytesFrom(es + [e], k + 1) == 0;
    }
  }

  lemma {:induction false} BytesFromSuffix(es: seq<Entry>, k: nat, j: nat)
    requires k <= |es| && j <= |es| - k
    ensures BytesFrom(es[k..], j) == BytesFrom(es, k + j)
    decreases |es| - k - j
  {
    if j < |es| - k {
      BytesFromSuffix(es, k, j + 1);
    }
  }

  /** The window after one more line, given how far the eviction went. */
  lemma WindowAfterAdd(added: seq<Entry>, e: Entry, maxSize: int, k: nat)
    requires k <= |added|
    requires forall j :: 0 <= j < k ==> BytesFrom(added + [e], j) > maxSize
    requires k == |added| || BytesFrom(added, k) + |e.raw| <= maxSize
    ensures Window(added + [e], maxSize) == added[k..] + [e]
    ensures BytesFrom(added[k..] + [e], 0) == BytesFrom(added, k) + |e.raw|
  {
    var all := added + [e];
    assert all[k..] == added[k..] + [e];
    BytesFromAppend(added, e, k);
    WindowIsLongestFittingSuffix(all, maxSize, k);
    BytesFromSuffix(all, k, 0);
  }

  lemma BytesFromStep(es: seq<Entry>, k: nat)
    requires k < |es|
    ensures BytesFrom(es, k) == |es[k].raw| + BytesFrom(es, k + 1)
  {
  }

  lemma NoBytesLeft(es: seq<Entry>, k: nat)
    requires k <= |es|
    ensures k == |es| ==> BytesFrom(es, k) == 0
  {
  }

  class StreamingBuffer {
    var entries: seq<Entry>
    const maxSize: int
    var current: int
    var evicted: bool

    /** What the fields are after the lines `added`. */
    ghost predicate Holds(added: seq<Entry>)
      reads this
    {
      && entries == Window(added, maxSize)
      && current == BytesFrom(entries, 0)
      && (evicted <==> |entries| < |added|)
    }

    constructor (maxSize: int)
      ensures this.maxSize == maxSize && Holds([])
    {
      entries, current, evicted := [], 0, false;
      this.maxSize := maxSize;
    }

    method Add(rawLine: string, contentDelta: string, ghost added: seq<Entry>)
      requires Holds(added)
      modifies this
      ensures Holds(added + [Entry(rawLine, contentDelta)])
    {
      hide BytesFrom, Cut;
      var lineBytes := |rawLine|;
      ghost var e := Entry(rawLine, contentDelta);
      ghost var all := added + [e];
      ghost var k: nat := Cut(added, maxSize, 0);
      CutIsLeast(added, maxSize, 0);
      forall j | 0 <= j < k
        ensures BytesFrom(all, j) > maxSize
      {
        BytesFromAppend(added, e, j);
      }
      BytesFromSuffix(added, k, 0);
      while current + lineBytes > maxSize && |entries| > 0
        invariant k <= |added| && entries == added[k..]
        invariant current == BytesFrom(added, k)
        invariant evicted <==> k > 0
        invariant forall j :: 0 <= j < k ==> BytesFrom(all, j) > maxSize
        decreases |entries|
      {
        evicted := true;
        BytesFromAppend(added, e, k);
        BytesFromStep(added, k);
        current := current - |entries[0].raw|;
        entries := entries[1..];
        k := k + 1;
      }
      NoBytesLeft(added, k);
      WindowAfterAdd(added, e, maxSize, k);
      entries := entries + [Entry(rawLine, contentDelta)];
      current := current + lineBytes;
    }

    /** A copy of the entries, and whether older lines were dropped. */
    method GetAll(ghost added: seq<Entry>) returns (result: seq<Entry>, dropped: bool)
      requires Holds(added)
      ensures result == Window(added, maxSize)
      ensures dropped <==> result != added
    {
      result, dropped := entries, evicted;
    }
  }

  // ----- the body -----

  function Concat(ds: seq<string>): string {
    if ds == [] then "" else Concat(ds[..|ds| - 1]) + ds[|ds| - 1]
  }

  /** The accumulated text is longer than the cap; a cap of 0 or less never stops it. */
  predicate CapReached(body: string, respMax: int) {
    respMax > 0 && |body| > respMax
  }

  function Capped(ds: seq<string>, respMax: int): string {
    if ds == [] then ""
    else
      var body := Capped(ds[..|ds| - 1], respMax);
      if CapReached(body, respMax) then body else body + ds[|ds| - 1]
  }

  const MARK: string := "\n[truncated]"

  /** truncateBodyWithConfig. A negative limit would slice out of range in the original. */
  function TruncateBody(b: string, maxBytes: nat): string {
    if maxBytes == 0 || |b| <= maxBytes then b else b[..maxBytes] + MARK
  }

  lemma {:induction false} CappedIsPrefix(ds: seq<string>, respMax: int)
    ensures Capped(ds, respMax) <= Concat(ds)
    ensures Capped(ds, respMax) == Concat(ds) || CapReached(Capped(ds, respMax), respMax)
  {
    if ds != [] {
      CappedIsPrefix(ds[..|ds| - 1], respMax);
    }
  }

  /** Stopping early changes nothing that is stored: the capped body and the whole text truncate alike. */
  lemma EarlyCapIsInvisible(ds: seq<string>, respMax: nat)
    ensures TruncateBody(Capped(ds, respMax), respMax) == TruncateBody(Concat(ds), respMax)
  {
    CappedIsPrefix(ds, respMax);
  }

  // ----- the scan loop -----

  /** What the loop asks of a line or its payload, as given functions. */
  datatype Codec = Codec(
    rewrite: string -> string,
    trim: string -> string,
    delta: string -> string,
    usage: string -> Option<UsageChunk>)

  datatype Config = Config(viaAlias: bool, respMax: int, trackStreaming: bool, bufferSize: int)

  const DATA: string := "data:"
  const DONE: string := "[DONE]"

  function TrimCR(line: string): string {
    if line != "" && line[|line| - 1] == '\r' then TrimCR(line[..|line| - 1]) else line
  }

  function Written(c: Codec, cfg: Config, line: string): string {
    if cfg.viaAlias then c.rewrite(TrimCR(line)) else TrimCR(line)
  }

  predicate IsData(line: string) {
    DATA <= TrimCR(line)
  }

  function Payload(c: Codec, line: string): string {
    var l := TrimCR(line);
    if DATA <= l then c.trim(l[|DATA|..]) else ""
  }

  predicate IsDone(c: Codec, line: string) {
    IsData(line) && Payload(c, line) == DONE
  }

  /** A data line that carries a payload. */
  predicate IsLive(c: Codec, line: string) {
    IsData(line) && Payload(c, line) != "" && Payload(c, line) != DONE
  }

  /** The payload-carrying lines among the first `k`, as buffer entries. */
  function LiveEntries(c: Codec, cfg: Config, lines: seq<string>, k: nat): seq<Entry>
    requires k <= |lines|
  {
    if k == 0 then []
    else
      var rest, line := LiveEntries(c, cfg, lines, k - 1), lines[k - 1];
      if IsLive(c, line) then rest + [Entry(Written(c, cfg, line), c.delta(Payload(c, line)))] else rest
  }

  function LiveDeltas(c: Codec, lines: seq<string>, k: nat): seq<string>
    requires k <= |lines|
  {
    if k == 0 then []
    else if IsLive(c, lines[k - 1]) then LiveDeltas(c, lines, k - 1) + [c.delta(Payload(c, lines[k - 1]))]
    else LiveDeltas(c, lines, k - 1)
  }

  function LiveUsage(c: Codec, lines: seq<string>, k: nat): seq<UsageChunk>
    requires k <= |lines|
  {
    if k == 0 then []
    else
      var rest, line := LiveUsage(c, lines, k - 1), lines[k - 1];
      if IsLive(c, line) && c.usage(Payload(c, line)).Some? then rest + [c.usage(Payload(c, line)).value] else rest
  }

  /** The number of lines before the first [DONE], or all of them. */
  function Extent(c: Codec, lines: seq<string>, i: nat): (k: nat)
    requires i <= |lines|
    ensures i <= k <= |lines|
    decreases |lines| - i
  {
    if i == |lines| || IsDone(c, lines[i]) then i else Extent(c, lines, i + 1)
  }

  datatype StreamError = CannotFlush | WriteFailed | ReadFailed

  /** What the surroundings do: whether the client's connection can be flushed, at which line writing to it
      fails, whether the scanner breaks off, when the request began and what the clock shows at each line. */
  datatype World = World(
    canFlush: bool,
    badWrite: Option<nat>,
    scanFails: bool,
    startTime: Time,
    clock: nat -> Time)

  /** A duration in whole milliseconds, rounded towards zero. */
  function Milliseconds(d: int): int {
    if d >= 0 then d / 1_000_000 else -(-d / 1_000_000)
  }

  /** `sent` is what the client received, one entry a line. */
  datatype StreamResult = StreamResult(
    usage: Option<UsageInfo>,
    ttftMs: Option<int>,
    body: string,
    chunks: seq<Entry>,
    prefixDropped: bool,
    error: Option<StreamError>,
    sent: seq<string>)

  function FirstLive(c: Codec, lines: seq<string>, k: nat): Option<nat>
    requires k <= |lines|
  {
    if k == 0 then None
    else
      var rest := FirstLive(c, lines, k - 1);
      if rest.None? && IsLive(c, lines[k - 1]) then Some(k - 1) else rest
  }

  /** The time to the first line that carries a payload. */
  function TimeToFirstToken(w: World, first: Option<nat>): Option<int> {
    if first.Some? then Some(Milliseconds(w.clock(first.value) - w.startTime)) else None
  }

  function WrittenLines(c: Codec, cfg: Config, lines: seq<string>, k: nat): seq<string>
    requires k <= |lines|
  {
    if k == 0 then [] else WrittenLines(c, cfg, lines, k - 1) + [Written(c, cfg, lines[k - 1])]
  }

  /** What the loop has gathered: usage, time to the first token, the text, and whether the cap was passed. */
  datatype Progress = Progress(usage: Option<UsageInfo>, ttftMs: Option<int>, body: string, capReached: bool)

  function ProgressAt(c: Codec, cfg: Config, w: World, lines: seq<string>, i: nat): Progress
    requires i <= |lines|
  {
    var body := Capped(LiveDeltas(c, lines, i), cfg.respMax);
    Progress(FoldUsage(LiveUsage(c, lines, i)), TimeToFirstToken(w, FirstLive(c, lines, i)), body,
      CapReached(body, cfg.respMax))
  }

  /** The result when the first `k` lines were taken in and the first `n` written to the client. */
  function Result(c: Codec, cfg: Config, w: World, lines: seq<string>, k: nat, n: nat, error: Option<StreamError>):
    StreamResult
    requires k <= |lines| && n <= |lines|
  {
    var live := LiveEntries(c, cfg, lines, k);
    var chunks := if error.None? && cfg.trackStreaming then Window(live, cfg.bufferSize) else [];
    var p := ProgressAt(c, cfg, w, lines, k);
    StreamResult(
      p.usage,
      p.ttftMs,
      if error.None? then p.body else "",
      chunks,
      error.None? && cfg.trackStreaming && chunks != live,
      error,
      WrittenLines(c, cfg, lines, n))
  }

  /** The lines up to the first [DONE] are taken in and written, and the [DONE] line itself is written,
      unless the connection cannot be flushed, a write fails first, or the scanner breaks off at the end. */
  function Expected(c: Codec, cfg: Config, w: World, lines: seq<string>): StreamResult {
    var k := Extent(c, lines, 0);
    if !w.canFlush then Result(c, cfg, w, lines, 0, 0, Some(CannotFlush))
    else if w.badWrite.Some? && w.badWrite.value <= k && w.badWrite.value < |lines|
    then Result(c, cfg, w, lines, w.badWrite.value, w.badWrite.value, Some(WriteFailed))
    else if k < |lines| then Result(c, cfg, w, lines, k, k + 1, None)
    else Result(c, cfg, w, lines, k, k, if w.scanFails then Some(ReadFailed) else None)
  }

  lemma ExtentStep(c: Codec, lines: seq<string>, i: nat)
    requires i <= |lines|
    ensures Extent(c, lines, i) == if i == |lines| || IsDone(c, lines[i]) then i else Extent(c, lines, i + 1)
  {
  }

  /** What line `i` adds to each of the functions of the lines before it. */
  lemma LineStep(c: Codec, cfg: Config, lines: seq<string>, i: nat)
    requires i < |lines|
    ensures WrittenLines(c, cfg, lines, i + 1) == WrittenLines(c, cfg, lines, i) + [Written(c, cfg, lines[i])]
    ensures FirstLive(c, lines, i + 1) ==
      if FirstLive(c, lines, i).None? && IsLive(c, lines[i]) then Some(i) else FirstLive(c, lines, i)
    ensures !IsLive(c, lines[i]) ==>
      && LiveEntries(c, cfg, lines, i + 1) == LiveEntries(c, cfg, lines, i)
      && LiveDeltas(c, lines, i + 1) == LiveDeltas(c, lines, i)
      && LiveUsage(c, lines, i + 1) == LiveUsage(c, lines, i)
    ensures IsLive(c, lines[i]) ==>
      var payload := Payload(c, lines[i]);
      var u := c.usage(payload);
      var body := Capped(LiveDeltas(c, lines, i), cfg.respMax);
      && LiveEntries(c, cfg, lines, i + 1)
           == LiveEntries(c, cfg, lines, i) + [Entry(Written(c, cfg, lines[i]), c.delta(payload))]
      && Capped(LiveDeltas(c, lines, i + 1), cfg.respMax)
           == (if CapReached(body, cfg.respMax) || c.delta(payload) == "" then body else body + c.delta(payload))
      && FoldUsage(LiveUsage(c, lines, i + 1))
           == (if u.Some? then Some(MergeStreamUsage(FoldUsage(LiveUsage(c, lines, i)), u.value))
               else FoldUsage(LiveUsage(c, lines, i)))
  {
    if IsLive(c, lines[i]) {
      var ds, us := LiveDeltas(c, lines, i), LiveUsage(c, lines, i);
      assert LiveDeltas(c, lines, i + 1)[..|ds|] == ds;
      if c.usage(Payload(c, lines[i])).Some? {
        assert LiveUsage(c, lines, i + 1)[..|us|] == us;
      }
    }
  }

  /** How the three ways out of the loop, at line `i` or at the end, meet what is expected. */
  lemma ExpectedAtBadWrite(c: Codec, cfg: Config, w: World, lines: seq<string>, i: nat)
    requires i < |lines| && w.canFlush && w.badWrite == Some(i) && i <= Extent(c, lines, 0)
    ensures Expected(c, cfg, w, lines) == Result(c, cfg, w, lines, i, i, Some(WriteFailed))
  {
  }

  lemma ExpectedAtDone(c: Codec, cfg: Config, w: World, lines: seq<string>, i: nat)
    requires i < |lines| && w.canFlush && i == Extent(c, lines, 0) && (w.badWrite.Some? ==> w.badWrite.value > i)
    ensures Expected(c, cfg, w, lines) == Result(c, cfg, w, lines, i, i + 1, None)
  {
  }

  lemma ExpectedAtEnd(c: Codec, cfg: Config, w: World, lines: seq<string>)
    requires w.canFlush && |lines| == Extent(c, lines, 0) && (w.badWrite.Some? ==> w.badWrite.value >= |lines|)
    ensures Expected(c, cfg, w, lines)
      == Result(c, cfg, w, lines, |lines|, |lines|, if w.scanFails then Some(ReadFailed) else None)
  {
  }

  lemma NoLinesYet(c: Codec, cfg: Config, w: World, lines: seq<string>)
    ensures LiveEntries(c, cfg, lines, 0) == [] && WrittenLines(c, cfg, lines, 0) == []
    ensures ProgressAt(c, cfg, w, lines, 0) == Progress(None, None, "", false)
  {
  }

  /** A line without a payload changes nothing but what the client has received. */
  lemma IdleLine(c: Codec, cfg: Config, w: World, lines: seq<string>, i: nat)
    requires i < |lines| && !IsLive(c, lines[i])
    ensures ProgressAt(c, cfg, w, lines, i + 1) == ProgressAt(c, cfg, w, lines, i)
  {
    LineStep(c, cfg, lines, i);
  }

  /** proxyStreaming over the scanned lines. */
  method ProxyStreaming(c: Codec, cfg: Config, w: World, lines: seq<string>) returns (r: StreamResult)
    ensures r == Expected(c, cfg, w, lines)
  {
    if !w.canFlush {
      return StreamResult(None, None, "", [], false, Some(CannotFlush), []);
    }
    NoLinesYet(c, cfg, w, lines);
    hide LiveEntries, LiveDeltas, LiveUsage, FoldUsage, Capped, Window, WrittenLines, FirstLive, IsData, Payload, TrimCR,
      Written, Extent, Expected, CapReached, ProgressAt, StreamingBuffer.Holds;
    var p := Progress(None, None, "", false);
    var sent: seq<string> := [];
    var buffer: StreamingBuffer? := null;
    if cfg.trackStreaming {
      buffer := new StreamingBuffer(cfg.bufferSize);
    }
    for i := 0 to |lines|
      invariant Extent(c, lines, i) == Extent(c, lines, 0)
      invariant w.badWrite.Some? ==> w.badWrite.value >= i || w.badWrite.value >= |lines|
      invariant p == ProgressAt(c, cfg, w, lines, i)
      invariant cfg.trackStreaming <==> buffer != null
      invariant buffer != null ==>
        fresh(buffer) && buffer.maxSize == cfg.bufferSize && buffer.Holds(LiveEntries(c, cfg, lines, i))
      invariant sent == WrittenLines(c, cfg, lines, i)
    {
      LineStep(c, cfg, lines, i);
      ExtentStep(c, lines, i);
      var line := lines[i];
      var lineToWrite := Written(c, cfg, line);
      if w.badWrite == Some(i) {
        ExpectedAtBadWrite(c, cfg, w, lines, i);
        return StreamResult(p.usage, p.ttftMs, "", [], false, Some(WriteFailed), sent);
      }
      sent := sent + [lineToWrite];
      var payload := Payload(c, line);
      if IsData(line) && payload == DONE {
        ExpectedAtDone(c, cfg, w, lines, i);
        var entries, dropped := TakeStreamingChunks(buffer, LiveEntries(c, cfg, lines, i));
        return StreamResult(p.usage, p.ttftMs, p.body, entries, dropped, None, sent);
      }
      if IsData(line) && payload != "" {
        p := TakePayload(c, cfg, w, lines, i, p);
        if buffer != null {
          buffer.Add(lineToWrite, c.delta(payload), LiveEntries(c, cfg, lines, i));
        }
      } else {
        IdleLine(c, cfg, w, lines, i);
      }
    }
    ExtentStep(c, lines, |lines|);
    ExpectedAtEnd(c, cfg, w, lines);
    if w.scanFails {
      return StreamResult(p.usage, p.ttftMs, "", [], false, Some(ReadFailed), sent);
    }
    var entries, dropped := TakeStreamingChunks(buffer, LiveEntries(c, cfg, lines, |lines|));
    return StreamResult(p.usage, p.ttftMs, p.body, entries, dropped, None, sent);
  }

  /** The part of the loop's body that a payload reaches. */
  method TakePayload(c: Codec, cfg: Config, w: World, lines: seq<string>, i: nat, p: Progress) returns (next: Progress)
    requires i < |lines| && IsLive(c, lines[i]) && p == ProgressAt(c, cfg, w, lines, i)
    ensures next == ProgressAt(c, cfg, w, lines, i + 1)
  {
    LineStep(c, cfg, lines, i);
    hide LiveEntries, LiveDeltas, LiveUsage, FoldUsage, Capped, FirstLive, Payload, MergeStreamUsage, Milliseconds;
    var payload := Payload(c, lines[i]);
    var usage, ttftMs := p.usage, p.ttftMs;
    if ttftMs.None? {
      ttftMs := Some(Milliseconds(w.clock(i) - w.startTime));
    }
    if c.usage(payload).Some? {
      usage := Some(MergeStreamUsage(usage, c.usage(payload).value));
    }
    var deltaText := c.delta(payload);
    var body, capReached := p.body, p.capReached;
    if !capReached && deltaText != "" {
      body := body + deltaText;
      if cfg.respMax > 0 && |body| > cfg.respMax {
        capReached := true;
      }
    }
    next := Progress(usage, ttftMs, body, capReached);
  }

  method TakeStreamingChunks(buffer: StreamingBuffer?, ghost added: seq<Entry>) returns (chunks: seq<Entry>, dropped: bool)
    requires buffer != null ==> buffer.Holds(added)
    ensures buffer == null ==> chunks == [] && !dropped
    ensures buffer != null ==> chunks == Window(added, buffer.maxSize) && (dropped <==> chunks != added)
  {
    if buffer == null {
      return [], false;
    }
    chunks, dropped := buffer.GetAll(added);
  }
}
