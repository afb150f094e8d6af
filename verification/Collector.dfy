/** Asynchronous persistence of request logs and stream chunks: internal/metrics/collector.go, and the
    running text the admin API rebuilds from the stored chunks (internal/admin/handler.go). */
module Collector {
  import opened Prelude
  import opened Models
  import opened Pricing
  import opened Streaming

  // ----- the queue and its worker -----

  type Job = nat

  datatype Worker = Running | Draining | Exited

  /** `queue` is the buffered channel. The last three fields are history: what was accepted, what was
      dropped, and what had been accepted when the worker left. */
  datatype State = State(
    capacity: nat,
    queue: seq<Job>,
    worker: Worker,
    closed: bool,
    cancelled: bool,
    processed: seq<Job>,
    accepted: seq<Job>,
    dropped: seq<Job>,
    acceptedAtExit: seq<Job>)

  datatype Step = Enqueue(job: Job) | Take | Cancel | NoticeCancel | LeaveEmpty | LeaveClosed | Close

  function Init(capacity: nat): State {
    State(capacity, [], Running, false, false, [], [], [], [])
  }

  /** Sending on a closed channel panics, so nobody enqueues after Close; other steps that are not
      enabled do nothing. */
  function Next(s: State, step: Step): State {
    match step
    case Enqueue(job) =>
      if s.closed then s
      else if |s.queue| < s.capacity then s.(queue := s.queue + [job], accepted := s.accepted + [job])
      else s.(dropped := s.dropped + [job])
    case Take =>
      if !s.worker.Exited? && s.queue != [] then s.(queue := s.queue[1..], processed := s.processed + [s.queue[0]]) else s
    case Cancel => s.(cancelled := true)
    case NoticeCancel => if s.worker.Running? && s.cancelled then s.(worker := Draining) else s
    case LeaveEmpty =>
      if s.worker.Draining? && s.queue == [] then s.(worker := Exited, acceptedAtExit := s.accepted) else s
    case LeaveClosed =>
      if !s.worker.Exited? && s.closed && s.queue == [] then s.(worker := Exited, acceptedAtExit := s.accepted) else s
    case Close => s.(closed := true)
  }

  function Exec(s: State, run: seq<Step>): State
    decreases |run|
  {
    if run == [] then s else Exec(Next(s, run[0]), run[1..])
  }

  ghost predicate Inv(s: State) {
    && s.accepted == s.processed + s.queue
    && |s.queue| <= s.capacity
    && (s.worker.Draining? ==> s.cancelled)
    && (s.worker.Exited? ==> s.processed == s.acceptedAtExit)
    && (s.worker.Exited? ==> s.cancelled || (s.closed && s.queue == []))
  }

  lemma {:induction false} RunKeepsInv(s: State, run: seq<Step>)
    requires Inv(s)
    ensures Inv(Exec(s, run))
    decreases |run|
  {
    if run != [] {
      RunKeepsInv(Next(s, run[0]), run[1..]);
    }
  }

  /** Accepted jobs are processed at most once and in order, and what is not yet processed is exactly what
      is in the channel. A worker that has left has processed everything accepted by then; if it was told
      to stop only by closing the channel, that is everything ever accepted. */
  lemma AcceptedJobsAreConserved(capacity: nat, run: seq<Step>)
    ensures var s := Exec(Init(capacity), run);
      && s.accepted == s.processed + s.queue
      && |s.queue| <= s.capacity
      && (s.worker.Exited? ==> s.processed == s.acceptedAtExit)
      && (s.worker.Exited? && !s.cancelled ==> s.processed == s.accepted)
  {
    RunKeepsInv(Init(capacity), run);
  }

  /** A job offered while the channel is open is dropped exactly when the channel is full. */
  lemma DroppedExactlyWhenFull(capacity: nat, run: seq<Step>, job: Job)
    requires !Exec(Init(capacity), run).closed
    ensures var s := Exec(Init(capacity), run);
      var next := Next(s, Enqueue(job));
      if |s.queue| == s.capacity then next == s.(dropped := s.dropped + [job])
      else next == s.(queue := s.queue + [job], accepted := s.accepted + [job])
  {
    RunKeepsInv(Init(capacity), run);
  }

  function Offered(run: seq<Step>): nat {
    if run == [] || run[0].Close? then 0 else Offered(run[1..]) + if run[0].Enqueue? then 1 else 0
  }

  lemma {:induction false} OfferedFrom(s: State, run: seq<Step>)
    ensures var t := Exec(s, run);
      |t.accepted| + |t.dropped| == |s.accepted| + |s.dropped| + if s.closed then 0 else Offered(run)
    decreases |run|
  {
    if run != [] {
      OfferedFrom(Next(s, run[0]), run[1..]);
    }
  }

  /** Of the jobs offered before the channel is closed, each is accepted or dropped, and counted once. */
  lemma EveryJobIsAcceptedOrDropped(capacity: nat, run: seq<Step>)
    ensures var s := Exec(Init(capacity), run);
      |s.accepted| + |s.dropped| == Offered(run)
  {
    OfferedFrom(Init(capacity), run);
  }

  /** A worker that has not left and keeps taking empties the channel, and has then processed all that was accepted. */
  lemma {:induction false} TakingDrains(s: State)
    requires Inv(s) && !s.worker.Exited?
    ensures var t := Exec(s, seq(|s.queue|, i => Take));
      t.queue == [] && t.processed == t.accepted == s.accepted && !t.worker.Exited?
    decreases |s.queue|
  {
    if s.queue != [] {
      var takes := seq(|s.queue|, i => Take);
      TakingDrains(Next(s, Take));
      assert takes[1..] == seq(|s.queue| - 1, i => Take);
    }
  }

  // ----- persisting one job -----

  datatype ChunkRow = ChunkRow(chunkIndex: nat, data: string, contentDelta: string, isTruncated: bool)

  /** The rows of a job: numbered from 0 in arrival order, only row 0 marked when older lines were lost. */
  predicate RowsOf(rows: seq<ChunkRow>, chunks: seq<Entry>, prefixDropped: bool) {
    && |rows| == |chunks|
    && (forall i :: 0 <= i < |rows| ==>
          && rows[i].chunkIndex == i && rows[i].data == chunks[i].raw && rows[i].contentDelta == chunks[i].delta
          && (rows[i].isTruncated <==> prefixDropped && i == 0))
  }

  /** The catalog's row for a provider and a model; `None` when the collector has no catalog. */
  type Lookup = Option<(string, string) -> Option<ProviderModel>>

  function PriceOf(catalog: Lookup, log: RequestLog): Option<ProviderModel> {
    if catalog.Some? then catalog.value(log.providerID, log.resolvedModel) else None
  }

  /** The cost stored with a log: what it came with, or else what the catalog's current rates make of it, as
      the database would; nothing for a log without provider or model, and nothing rather than no cost. */
  function StoredCost(log: RequestLog, estimated: Option<real>, catalog: Lookup): Option<real> {
    var row := Row(log, PriceOf(catalog, log));
    var cost := SqlInputCase(row) + SqlOutputCase(row) + SqlCachedCase(row);
    if estimated.Some? || log.providerID == "" || log.resolvedModel == "" || cost <= 0.0 then estimated else Some(cost)
  }

  /** A cost that came with the log stands; otherwise one is stored when the log names a provider and a model, the
      catalog has a row for them, and its rates make the log cost something. */
  lemma StoredCostMeans(log: RequestLog, estimated: Option<real>, catalog: Lookup)
    ensures estimated.Some? ==> StoredCost(log, estimated, catalog) == estimated
    ensures estimated.None? && (log.providerID == "" || log.resolvedModel == "" || catalog.None?) ==>
      StoredCost(log, estimated, catalog) == None
    ensures estimated.None? && log.providerID != "" && log.resolvedModel != "" && catalog.Some? ==>
      var cost := ForRequestLog(Some(log), catalog.value(log.providerID, log.resolvedModel)).totalUSD;
      StoredCost(log, estimated, catalog) == if cost > 0.0 then Some(cost) else None
  {
    RowCostsAgree(Row(log, PriceOf(catalog, log)));
  }

  /** What a job leaves behind: the log with its cost, the call to the accumulator, the chunk rows. */
  datatype Stored = Stored(
    log: Option<(RequestLog, Option<real>)>,
    recorded: Option<(RequestLog, Option<ProviderModel>)>,
    rows: seq<ChunkRow>)

  /** Inserts may fail: the log's, then nothing else is stored; a chunk's, then the chunks before it are. */
  method Persist(log: RequestLog, estimated: Option<real>, chunks: seq<Entry>, prefixDropped: bool,
      catalog: Lookup, hasStats: bool, logFails: bool, chunkFailsAt: Option<nat>) returns (stored: Stored)
    ensures logFails ==> stored == Stored(None, None, [])
    ensures !logFails ==>
      var n := if chunkFailsAt.Some? && chunkFailsAt.value < |chunks| then chunkFailsAt.value else |chunks|;
      && stored.log == Some((log, StoredCost(log, estimated, catalog)))
      && stored.recorded == (if !hasStats then None
           else Some((log, if catalog.None? then None else catalog.value(log.providerID, log.resolvedModel))))
      && RowsOf(stored.rows, chunks[..n], prefixDropped)
      && |stored.rows| == n
      && forall i :: 0 <= i < n ==>
        stored.rows[i] == ChunkRow(i, chunks[i].raw, chunks[i].delta, prefixDropped && i == 0)
  {
    var cost := estimated;
    if log.providerID != "" && log.resolvedModel != "" && estimated.None? && catalog.Some? {
      var pm := catalog.value(log.providerID, log.resolvedModel);
      if pm.Some? {
        var b := ForRequestLog(Some(log), pm);
        RowCostsAgree(Row(log, pm));
        if b.totalUSD > 0.0 {
          cost := Some(b.totalUSD);
        }
      }
    }
    if logFails {
      return Stored(None, None, []);
    }
    var recorded := None;
    if hasStats {
      recorded := Some((log, PriceOf(catalog, log)));
    }
    var rows := StoreChunks(chunks, prefixDropped, chunkFailsAt);
    return Stored(Some((log, cost)), recorded, rows);
  }

  method StoreChunks(chunks: seq<Entry>, prefixDropped: bool, failsAt: Option<nat>) returns (rows: seq<ChunkRow>)
    ensures var n := if failsAt.Some? && failsAt.value < |chunks| then failsAt.value else |chunks|;
      RowsOf(rows, chunks[..n], prefixDropped)
  {
    rows := [];
    for i := 0 to |chunks|
      invariant failsAt.Some? ==> i <= failsAt.value || |chunks| <= failsAt.value
      invariant RowsOf(rows, chunks[..i], prefixDropped)
    {
      if failsAt == Some(i) {
        return;
      }
      rows := rows + [ChunkRow(i, chunks[i].raw, chunks[i].delta, prefixDropped && i == 0)];
    }
  }

  /** HandleGetStreamingLogs: each row gets the text of all rows up to it. */
  method CumulativeBodies(rows: seq<ChunkRow>) returns (bodies: seq<string>)
    ensures |bodies| == |rows|
    ensures forall i :: 0 <= i < |rows| ==> bodies[i] == Concat(RowDeltas(rows[..i + 1]))
  {
    bodies := [];
    var acc := "";
    for n := 0 to |rows|
      invariant |bodies| == n && acc == Concat(RowDeltas(rows[..n]))
      invariant forall i :: 0 <= i < n ==> bodies[i] == Concat(RowDeltas(rows[..i + 1]))
    {
      assert RowDeltas(rows[..n + 1])[..n] == RowDeltas(rows[..n]);
      acc := acc + rows[n].contentDelta;
      bodies := bodies + [acc];
    }
  }

  function RowDeltas(rows: seq<ChunkRow>): (ds: seq<string>)
    ensures |ds| == |rows| && forall i :: 0 <= i < |rows| ==> ds[i] == rows[i].contentDelta
  {
    seq(|rows|, i requires 0 <= i < |rows| => rows[i].contentDelta)
  }

  // ----- from the stream to the admin's text -----

  function Deltas(es: seq<Entry>): (ds: seq<string>)
    ensures |ds| == |es| && forall i :: 0 <= i < |es| ==> ds[i] == es[i].delta
  {
    seq(|es|, i requires 0 <= i < |es| => es[i].delta)
  }

  lemma {:induction false} LiveDeltasAreDeltas(c: Codec, cfg: Config, lines: seq<string>, k: nat)
    requires k <= |lines|
    ensures LiveDeltas(c, lines, k) == Deltas(LiveEntries(c, cfg, lines, k))
  {
    if k > 0 {
      LiveDeltasAreDeltas(c, cfg, lines, k - 1);
    }
  }

  lemma {:induction false} ConcatAppend(xs: seq<string>, ys: seq<string>)
    ensures Concat(xs + ys) == Concat(xs) + Concat(ys)
    decreases |ys|
  {
    if ys == [] {
      assert xs + ys == xs;
    } else {
      assert (xs + ys)[..|xs + ys| - 1] == xs + ys[..|ys| - 1];
      ConcatAppend(xs, ys[..|ys| - 1]);
    }
  }

  predicate SuffixOf(a: string, b: string) {
    |a| <= |b| && b[|b| - |a|..] == a
  }

  /** The whole assistant text of a stream: every delta up to the first [DONE]. */
  function FullText(c: Codec, lines: seq<string>): string {
    Concat(LiveDeltas(c, lines, Extent(c, lines, 0)))
  }

  /** A tracked stream that ends well and whose rows are all stored: the text the admin API shows at the
      last row is a suffix of the whole text, the whole text when no line was evicted, and then the
      reconstructed body as well unless that was capped. The body stored with the log is the whole text,
      truncated. */
  lemma StreamLoggingEndToEnd(
    c: Codec, cfg: Config, w: World, lines: seq<string>, rows: seq<ChunkRow>)
    requires cfg.trackStreaming && cfg.respMax >= 0
    requires var r := Expected(c, cfg, w, lines);
      r.error.None? && r.chunks != [] && RowsOf(rows, r.chunks, r.prefixDropped)
    ensures var r := Expected(c, cfg, w, lines);
      var shown := Concat(RowDeltas(rows));
      && SuffixOf(shown, FullText(c, lines))
      && (!r.prefixDropped ==> shown == FullText(c, lines))
      && (!r.prefixDropped && !CapReached(r.body, cfg.respMax) ==> shown == r.body)
      && (rows[0].isTruncated <==> r.chunks != LiveEntries(c, cfg, lines, Extent(c, lines, 0)))
      && TruncateBody(r.body, cfg.respMax) == TruncateBody(FullText(c, lines), cfg.respMax)
  {
    hide TruncateBody, Capped, LiveEntries, LiveDeltas, LiveUsage, Extent, Cut, Concat, SuffixOf;
    var r := Expected(c, cfg, w, lines);
    var k := Extent(c, lines, 0);
    var live := LiveEntries(c, cfg, lines, k);
    LiveDeltasAreDeltas(c, cfg, lines, k);
    ShownText(live, Cut(live, cfg.bufferSize, 0), rows);
    EarlyCapIsInvisible(LiveDeltas(c, lines, k), cfg.respMax);
    CappedIsPrefix(LiveDeltas(c, lines, k), cfg.respMax);
  }

  /** The text of the rows that were kept, against that of all lines. */
  lemma ShownText(live: seq<Entry>, cut: nat, rows: seq<ChunkRow>)
    requires cut <= |live| && RowDeltas(rows) == Deltas(live[cut..])
    ensures SuffixOf(Concat(RowDeltas(rows)), Concat(Deltas(live)))
    ensures live[cut..] == live ==> Concat(RowDeltas(rows)) == Concat(Deltas(live))
  {
    assert Deltas(live) == Deltas(live[..cut]) + Deltas(live[cut..]);
    ConcatAppend(Deltas(live[..cut]), Deltas(live[cut..]));
  }
}
