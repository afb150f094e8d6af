/** What the client, the log and the chunk rows get of a stream, read line by line. */
module StreamLaws {
  import opened Prelude
  import opened Streaming

  // ----- lines -----

  /** Carriage returns at the end of a line are dropped, all of them, and nothing else. */
  lemma {:induction false} TrimCRMeans(line: string)
    ensures var t := TrimCR(line);
      && t <= line
      && (t != "" ==> t[|t| - 1] != '\r')
      && forall i :: |t| <= i < |line| ==> line[i] == '\r'
  {
    if line != "" && line[|line| - 1] == '\r' {
      TrimCRMeans(line[..|line| - 1]);
    }
  }

  /** A line is data if it begins with "data:" once trimmed; its payload is the rest, trimmed. "[DONE]" ends the
      stream, an empty payload is passed over, and any other one is taken in. */
  lemma LineMeans(c: Codec, line: string)
    ensures var t := TrimCR(line);
      var data := |t| >= 5 && t[..5] == ['d', 'a', 't', 'a', ':'];
      && (IsDone(c, line) <==> data && c.trim(t[5..]) == ['[', 'D', 'O', 'N', 'E', ']'])
      && (IsLive(c, line) <==> data && c.trim(t[5..]) != "" && c.trim(t[5..]) != ['[', 'D', 'O', 'N', 'E', ']'])
      && (data ==> Payload(c, line) == c.trim(t[5..]))
  {
  }

  /** The client gets a line without its carriage returns, rewritten if the model was an alias. */
  lemma WrittenMeans(c: Codec, cfg: Config, line: string)
    ensures cfg.viaAlias ==> Written(c, cfg, line) == c.rewrite(TrimCR(line))
    ensures !cfg.viaAlias ==> Written(c, cfg, line) == TrimCR(line)
  {
  }

  lemma {:induction false} WrittenLinesAre(c: Codec, cfg: Config, lines: seq<string>, k: nat)
    requires k <= |lines|
    ensures |WrittenLines(c, cfg, lines, k)| == k
    ensures forall i :: 0 <= i < k ==> WrittenLines(c, cfg, lines, k)[i] == Written(c, cfg, lines[i])
  {
    if k > 0 {
      WrittenLinesAre(c, cfg, lines, k - 1);
    }
  }

  /** The lines of `at` are the data lines with a payload among the first `k`. */
  ghost predicate LiveLines(c: Codec, lines: seq<string>, k: nat, at: seq<nat>) {
    k <= |lines| && Rising(at, k) && forall n :: 0 <= n < k ==> (n in at <==> IsLive(c, lines[n]))
  }

  lemma {:induction false} LiveLinesOf(c: Codec, lines: seq<string>, k: nat) returns (at: seq<nat>)
    requires k <= |lines|
    ensures LiveLines(c, lines, k, at)
    ensures FirstLive(c, lines, k) == if at == [] then None else Some(at[0])
  {
    hide IsLive;
    at := [];
    if k > 0 {
      at := LiveLinesOf(c, lines, k - 1);
      if IsLive(c, lines[k - 1]) {
        at := at + [k - 1];
      }
    }
  }

  function TextsAt(c: Codec, lines: seq<string>, at: seq<nat>): (r: seq<string>)
    requires Rising(at, |lines|)
  {
    seq(|at|, i requires 0 <= i < |at| => c.delta(Payload(c, lines[at[i]])))
  }

  function EntriesAt(c: Codec, cfg: Config, lines: seq<string>, at: seq<nat>): (r: seq<Entry>)
    requires Rising(at, |lines|)
  {
    seq(|at|, i requires 0 <= i < |at| => Entry(Written(c, cfg, lines[at[i]]), c.delta(Payload(c, lines[at[i]]))))
  }

  /** One entry, and one piece of text, for each of these lines. */
  lemma {:induction false} EntriesAre(c: Codec, cfg: Config, lines: seq<string>, k: nat, at: seq<nat>)
    requires LiveLines(c, lines, k, at)
    ensures LiveEntries(c, cfg, lines, k) == EntriesAt(c, cfg, lines, at)
    ensures LiveDeltas(c, lines, k) == TextsAt(c, lines, at)
  {
    hide IsLive, Written, Payload;
    if k > 0 {
      if IsLive(c, lines[k - 1]) {
        var init := at[..|at| - 1];
        LastIsLast(at, k);
        assert LiveLines(c, lines, k - 1, init);
        EntriesAre(c, cfg, lines, k - 1, init);
        assert EntriesAt(c, cfg, lines, at) == EntriesAt(c, cfg, lines, init)
          + [Entry(Written(c, cfg, lines[k - 1]), c.delta(Payload(c, lines[k - 1])))];
        assert TextsAt(c, lines, at) == TextsAt(c, lines, init) + [c.delta(Payload(c, lines[k - 1]))];
      } else {
        assert LiveLines(c, lines, k - 1, at);
        EntriesAre(c, cfg, lines, k - 1, at);
      }
    }
  }

  lemma NoneAboveTheLast(at: seq<nat>, k: nat, i: nat)
    requires Rising(at, k) && i < |at|
    ensures at[i] <= at[|at| - 1]
  {
  }

  lemma LastIsLast(at: seq<nat>, k: nat)
    requires Rising(at, k) && k > 0 && k - 1 in at
    ensures at[|at| - 1] == k - 1 && Rising(at[..|at| - 1], k - 1)
    ensures forall n :: 0 <= n < k - 1 ==> (n in at <==> n in at[..|at| - 1])
  {
    var i :| 0 <= i < |at| && at[i] == k - 1;
    NoneAboveTheLast(at, k, i);
    assert at == at[..|at| - 1] + [k - 1];
  }

  /** The usage reports among the first `k` lines: those of the live lines that carry one. */
  lemma {:induction false} UsageLinesOf(c: Codec, lines: seq<string>, k: nat) returns (at: seq<nat>)
    requires k <= |lines|
    ensures Rising(at, k) && |LiveUsage(c, lines, k)| == |at|
    ensures forall n :: 0 <= n < k ==> (n in at <==> IsLive(c, lines[n]) && c.usage(Payload(c, lines[n])).Some?)
    ensures forall i :: 0 <= i < |at| ==> c.usage(Payload(c, lines[at[i]])) == Some(LiveUsage(c, lines, k)[i])
  {
    hide IsLive, Payload;
    at := [];
    if k > 0 {
      at := UsageLinesOf(c, lines, k - 1);
      if IsLive(c, lines[k - 1]) && c.usage(Payload(c, lines[k - 1])).Some? {
        at := at + [k - 1];
      }
    }
  }

  lemma {:induction false} ExtentMeans(c: Codec, lines: seq<string>, i: nat)
    requires i <= |lines|
    ensures var k := Extent(c, lines, i);
      (forall j :: i <= j < k ==> !IsDone(c, lines[j])) && (k < |lines| ==> IsDone(c, lines[k]))
    decreases |lines| - i
  {
    hide IsDone;
    if i < |lines| && !IsDone(c, lines[i]) {
      ExtentMeans(c, lines, i + 1);
    }
  }

  // ----- bodies -----

  /** The body takes in whole pieces of text until it is longer than the cap, and no more after that. */
  lemma {:induction false} CappedMeans(ds: seq<string>, respMax: int) returns (n: nat)
    ensures n <= |ds| && Capped(ds, respMax) == Concat(ds[..n])
    ensures n < |ds| ==> respMax > 0 && |Concat(ds[..n])| > respMax
    ensures respMax > 0 ==> forall m :: 0 <= m < n ==> |Concat(ds[..m])| <= respMax
  {
    n := 0;
    if ds != [] {
      var init := ds[..|ds| - 1];
      n := CappedMeans(init, respMax);
      assert forall m :: 0 <= m <= n ==> init[..m] == ds[..m];
      if n == |init| && !CapReached(Concat(init), respMax) {
        assert ds[..n + 1] == ds;
        n := n + 1;
      }
    }
  }

  /** A stored body keeps its first bytes up to the limit; a longer one says that it was cut, and 0 is no limit. */
  lemma TruncatedMeans(b: string, maxBytes: nat)
    ensures var t := TruncateBody(b, maxBytes);
      if 0 < maxBytes < |b| then t[..maxBytes] == b[..maxBytes] && t[maxBytes..] == "\n[truncated]" else t == b
  {
  }

  /** Durations are cut off towards zero. */
  lemma MillisecondsMeans(d: int)
    ensures d >= 0 ==> Milliseconds(d) * 1_000_000 <= d < (Milliseconds(d) + 1) * 1_000_000
    ensures d < 0 ==> (Milliseconds(d) - 1) * 1_000_000 < d <= Milliseconds(d) * 1_000_000
  {
  }

  /** The cached count of a stream is that of the last report to give one. */
  lemma {:induction false} LastDetailsMeans(us: seq<UsageChunk>, i: nat)
    requires i <= |us| && forall j :: i <= j < |us| ==> us[j].details.None?
    ensures LastDetails(us) == if i == 0 then None
      else if us[i - 1].details.Some? then us[i - 1].details else LastDetails(us[..i - 1])
  {
    if i < |us| {
      var init := us[..|us| - 1];
      LastDetailsMeans(init, i);
      assert i > 0 ==> init[..i - 1] == us[..i - 1];
    }
  }

  function Raws(es: seq<Entry>): (r: seq<string>)
    ensures |r| == |es| && forall i :: 0 <= i < |es| ==> r[i] == es[i].raw
  {
    seq(|es|, i requires 0 <= i < |es| => es[i].raw)
  }

  /** The bytes that the buffer counts are those of the raw lines written one after another. */
  lemma {:induction false} BytesAreRawLengths(es: seq<Entry>, k: nat)
    requires k <= |es|
    ensures BytesFrom(es, k) == |Concat(Raws(es[k..]))|
    decreases |es|
  {
    if k < |es| {
      var init, e := es[..|es| - 1], es[|es| - 1];
      assert es == init + [e];
      BytesFromAppend(init, e, k);
      BytesAreRawLengths(init, k);
      assert Raws(es[k..])[..|es[k..]| - 1] == Raws(init[k..]);
    }
  }

  lemma ConcatOne(d: string)
    ensures Concat([]) == "" && Concat([d]) == d
  {
    assert Concat([d]) == Concat([]) + d;
  }

  // ----- the whole stream -----

  predicate NoneDone(c: Codec, lines: seq<string>, n: nat)
    requires n <= |lines|
  {
    forall j :: 0 <= j < n ==> !IsDone(c, lines[j])
  }

  predicate Writable(w: World, n: nat) {
    w.canFlush && (w.badWrite.Some? ==> w.badWrite.value >= n)
  }

  /** How a stream ends, and how much of it the client has by then: all of it or everything up to "[DONE]",
      unless the connection cannot be flushed, a line before that cannot be written, or reading breaks off. */
  lemma StreamEnds(c: Codec, cfg: Config, w: World, lines: seq<string>)
    ensures var r := Expected(c, cfg, w, lines);
      var n := |r.sent|;
      && n <= |lines|
      && (forall i :: 0 <= i < n ==> r.sent[i] == Written(c, cfg, lines[i]))
      && match r.error {
        case Some(CannotFlush) => n == 0 && !w.canFlush
        case Some(WriteFailed) => w.canFlush && w.badWrite == Some(n) && n < |lines| && NoneDone(c, lines, n)
        case Some(ReadFailed) => Writable(w, n) && n == |lines| && NoneDone(c, lines, n) && w.scanFails
        case None => Writable(w, n) &&
          if n > 0 && IsDone(c, lines[n - 1]) then NoneDone(c, lines, n - 1)
          else n == |lines| && NoneDone(c, lines, n) && !w.scanFails
      }
  {
    hide LiveEntries, LiveDeltas, LiveUsage, FoldUsage, Capped, Window, FirstLive, IsDone, Written, Extent;
    ExtentMeans(c, lines, 0);
    forall n: nat | n <= |lines| ensures |WrittenLines(c, cfg, lines, n)| == n {
      WrittenLinesAre(c, cfg, lines, n);
    }
    WrittenLinesAre(c, cfg, lines, |Expected(c, cfg, w, lines).sent|);
  }

  /** Every line the client has is one of the stream's, in order, without its carriage returns, and rewritten if the
      model was an alias. */
  lemma ClientGetsTheLines(c: Codec, cfg: Config, w: World, lines: seq<string>)
    ensures var sent := Expected(c, cfg, w, lines).sent;
      && |sent| <= |lines|
      && (cfg.viaAlias ==> forall i :: 0 <= i < |sent| ==> sent[i] == c.rewrite(TrimCR(lines[i])))
      && (!cfg.viaAlias ==> forall i :: 0 <= i < |sent| ==> sent[i] == TrimCR(lines[i]))
  {
    StreamEnds(c, cfg, w, lines);
    hide *;
    forall i | 0 <= i < |Expected(c, cfg, w, lines).sent|
      ensures cfg.viaAlias ==> Expected(c, cfg, w, lines).sent[i] == c.rewrite(TrimCR(lines[i]))
      ensures !cfg.viaAlias ==> Expected(c, cfg, w, lines).sent[i] == TrimCR(lines[i])
    {
      WrittenMeans(c, cfg, lines[i]);
    }
  }

  /** What is made of the lines before that: the time to the first of them that carries a payload, the usage they
      report, and, if the stream ended well, their text up to the cap and, if asked for, the latest of them. */
  lemma StreamGives(c: Codec, cfg: Config, w: World, lines: seq<string>) returns (k: nat, at: seq<nat>)
    ensures var r := Expected(c, cfg, w, lines);
      && |r.sent| <= |lines|
      && k == (if r.error.None? && r.sent != [] && IsDone(c, lines[|r.sent| - 1]) then |r.sent| - 1 else |r.sent|)
      && LiveLines(c, lines, k, at)
      && r.ttftMs == (if at == [] then None else Some(Milliseconds(w.clock(at[0]) - w.startTime)))
      && r.usage == FoldUsage(LiveUsage(c, lines, k))
      && r.body == (if r.error.None? then Capped(TextsAt(c, lines, at), cfg.respMax) else "")
      && r.chunks == (if r.error.None? && cfg.trackStreaming then Window(EntriesAt(c, cfg, lines, at), cfg.bufferSize) else [])
      && (r.prefixDropped <==> r.error.None? && cfg.trackStreaming && r.chunks != EntriesAt(c, cfg, lines, at))
  {
    StreamEnds(c, cfg, w, lines);
    var r := Expected(c, cfg, w, lines);
    k := if r.error.None? && r.sent != [] && IsDone(c, lines[|r.sent| - 1]) then |r.sent| - 1 else |r.sent|;
    TakenIn(c, cfg, w, lines, k);
    at := LiveLinesOf(c, lines, k);
    hide *;
    EntriesAre(c, cfg, lines, k, at);
    ResultReads(c, cfg, w, lines, k, |r.sent|, r.error, at);
  }

  lemma TakenIn(c: Codec, cfg: Config, w: World, lines: seq<string>, k: nat)
    requires var r := Expected(c, cfg, w, lines);
      && |r.sent| <= |lines|
      && k == (if r.error.None? && r.sent != [] && IsDone(c, lines[|r.sent| - 1]) then |r.sent| - 1 else |r.sent|)
    ensures var r := Expected(c, cfg, w, lines);
      r == Result(c, cfg, w, lines, k, |r.sent|, r.error)
  {
    hide LiveEntries, LiveDeltas, LiveUsage, FoldUsage, Capped, Window, FirstLive, IsDone, Written, Extent, ProgressAt;
    ExtentMeans(c, lines, 0);
    forall n: nat | n <= |lines| ensures |WrittenLines(c, cfg, lines, n)| == n {
      WrittenLinesAre(c, cfg, lines, n);
    }
  }

  lemma ResultReads(c: Codec, cfg: Config, w: World, lines: seq<string>, k: nat, n: nat, error: Option<StreamError>,
      at: seq<nat>)
    requires n <= |lines| && Rising(at, k) && k <= |lines|
    requires FirstLive(c, lines, k) == if at == [] then None else Some(at[0])
    requires LiveEntries(c, cfg, lines, k) == EntriesAt(c, cfg, lines, at) && LiveDeltas(c, lines, k) == TextsAt(c, lines, at)
    ensures var r := Result(c, cfg, w, lines, k, n, error);
      && r.ttftMs == (if at == [] then None else Some(Milliseconds(w.clock(at[0]) - w.startTime)))
      && r.usage == FoldUsage(LiveUsage(c, lines, k))
      && r.body == (if error.None? then Capped(TextsAt(c, lines, at), cfg.respMax) else "")
      && r.chunks == (if error.None? && cfg.trackStreaming then Window(EntriesAt(c, cfg, lines, at), cfg.bufferSize) else [])
      && (r.prefixDropped <==> error.None? && cfg.trackStreaming && r.chunks != EntriesAt(c, cfg, lines, at))
  {
    hide LiveEntries, LiveDeltas, LiveUsage, FoldUsage, Capped, Window, FirstLive, WrittenLines, EntriesAt, TextsAt, Milliseconds;
  }
}
