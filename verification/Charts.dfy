/** What the charts and the kept hours say about the logs, read field by field and in nanoseconds. */
module Charts {
  import opened Prelude
  import opened Models
  import opened Pricing
  import opened Tallies
  import opened TimeSeries
  import opened Accumulator
  import opened Dashboards

  /** The columns of a point, but for its input tokens, over the logs that `own` picks out. */
  ghost predicate Columns(u: Usage, rows: seq<Entry>, own: RequestLog -> bool) {
    && u.requests == Total(rows, (l: RequestLog) => if own(l) then 1 else 0)
    && u.successes == Total(rows, (l: RequestLog) => if own(l) && 200 <= l.statusCode < 300 then 1 else 0)
    && u.errors == Total(rows, (l: RequestLog) => if own(l) && l.statusCode >= 400 then 1 else 0)
    && u.promptTokens == Total(rows, (l: RequestLog) => if own(l) && l.promptTokens.Some? then l.promptTokens.value else 0)
    && u.completionTokens
      == Total(rows, (l: RequestLog) => if own(l) && l.completionTokens.Some? then l.completionTokens.value else 0)
    && u.totalTokens == Total(rows, (l: RequestLog) => if own(l) && l.totalTokens.Some? then l.totalTokens.value else 0)
    && u.cachedTokens == Total(rows, (l: RequestLog) => if own(l) && l.cachedTokens.Some? then l.cachedTokens.value else 0)
    && u.totalCost == TotalCost(rows, (c: Breakdown) => c.totalUSD, own)
    && u.inputCost == TotalCost(rows, (c: Breakdown) => c.inputUSD, own)
    && u.outputCost == TotalCost(rows, (c: Breakdown) => c.outputUSD, own)
    && u.cachedCost == TotalCost(rows, (c: Breakdown) => c.cachedReadUSD, own)
  }

  /** The input tokens of a log: what its prompt has beyond the cached tokens, never less than nothing. */
  function Uncached(l: RequestLog): int {
    if l.promptTokens.None? then 0
    else
      var n := l.promptTokens.value - if l.cachedTokens.Some? then l.cachedTokens.value else 0;
      if n < 0 then 0 else n
  }

  lemma {:induction false} ColumnsOf(rows: seq<Entry>, span: Span, who: Who, own: RequestLog -> bool)
    requires forall l: RequestLog :: Covers(span, l.timestamp) && Concerns(who, l) <==> own(l)
    ensures var u := Tally(rows, span, who).usage;
      Columns(u, rows, own) && u.inputTokens == Total(rows, (l: RequestLog) => if own(l) then Uncached(l) else 0)
  {
    if rows != [] {
      ColumnsOf(rows[..|rows| - 1], span, who, own);
    }
  }

  ghost predicate DatabasePoint(p: Point, rows: seq<Entry>, since: Time, until: Time, len: int, key: string)
    requires len > 0
  {
    && Columns(p.usage, rows, (l: RequestLog) =>
      since <= l.timestamp <= until && l.timestamp / len == p.bucket && (key == "" || l.apiKeyID == key))
    && p.usage.inputTokens == p.usage.promptTokens - p.usage.cachedTokens
  }

  ghost predicate LiveUsage(p: Point, logs: seq<Entry>, len: int)
    requires len > 0
  {
    var own := (l: RequestLog) => l.timestamp / len == p.bucket;
    Columns(p.usage, logs, own) && p.usage.inputTokens == Total(logs, (l: RequestLog) => if own(l) then Uncached(l) else 0)
  }

  /** Each point of the database's chart is about the logs of its hour or day, of the window and of the API key, if
      one is asked for. Its input tokens are the difference of two columns. */
  lemma PointMeans(rows: seq<Entry>, since: Time, until: Time, granularity: string, key: string)
    requires granularity == "hour" || granularity == "day"
    ensures Parse(granularity).Some?
    ensures var series := Series(rows, since, until, Parse(granularity).value, Asked(key));
      var len := if granularity == "hour" then 3_600_000_000_000 else 86_400_000_000_000;
      && |series| == Max(0, until / len - since / len + 1)
      && forall i :: 0 <= i < |series| ==>
        series[i].bucket == since / len + i && DatabasePoint(series[i], rows, since, until, len, key)
  {
    var g := Parse(granularity).value;
    var len := if granularity == "hour" then 3_600_000_000_000 else 86_400_000_000_000;
    var series := Series(rows, since, until, g, Asked(key));
    hide Tally;
    forall i | 0 <= i < |series|
      ensures series[i].bucket == since / len + i && DatabasePoint(series[i], rows, since, until, len, key)
    {
      SeriesPoint(series[i], rows, since, until, g, len, key);
    }
  }

  lemma SeriesPoint(p: Point, rows: seq<Entry>, since: Time, until: Time, g: Granularity, len: int, key: string)
    requires len == if g.Hourly? then 3_600_000_000_000 else 86_400_000_000_000
    requires p.usage == Shown(rows, Cut(since, until + 1, Starts(g), p.bucket), Asked(key))
    ensures DatabasePoint(p, rows, since, until, len, key)
  {
    hide Tally, Total, TotalCost;
    var own := (l: RequestLog) =>
      since <= l.timestamp <= until && l.timestamp / len == p.bucket && (key == "" || l.apiKeyID == key);
    var span := Cut(since, until + 1, Starts(g), p.bucket);
    forall l: RequestLog ensures Covers(span, l.timestamp) && Concerns(Asked(key), l) <==> own(l) {
      InBucket(g, len, p.bucket, l.timestamp);
    }
    ColumnsOf(rows, span, Asked(key), own);
  }

  lemma InBucket(g: Granularity, len: int, b: int, t: Time)
    requires len == if g.Hourly? then 3_600_000_000_000 else 86_400_000_000_000
    ensures Start(g, b) <= t < Start(g, b + 1) <==> t / len == b
  {
  }

  /** Each point of the live chart is about all the logs of its hour or day; its input tokens are those of each log. */
  lemma LivePointMeans(logs: seq<Entry>, since: Time, until: Time, granularity: string)
    requires granularity == "hour" || granularity == "day"
    ensures Parse(granularity).Some?
    ensures var series := LiveSeries(logs, since, until, Parse(granularity).value);
      var len := if granularity == "hour" then 3_600_000_000_000 else 86_400_000_000_000;
      && |series| == Max(0, until / len - since / len + 1)
      && forall i :: 0 <= i < |series| ==> series[i].bucket == since / len + i && LiveUsage(series[i], logs, len)
  {
    var g := Parse(granularity).value;
    var len := if granularity == "hour" then 3_600_000_000_000 else 86_400_000_000_000;
    var series := LiveSeries(logs, since, until, g);
    hide Tally;
    forall i | 0 <= i < |series| ensures series[i].bucket == since / len + i && LiveUsage(series[i], logs, len) {
      assert series[i] == LivePoint(logs, g, BucketOf(g, since) + i);
      LiveSeriesPoint(series[i], logs, g, len);
    }
  }

  lemma LiveSeriesPoint(p: Point, logs: seq<Entry>, g: Granularity, len: int)
    requires len == if g.Hourly? then 3_600_000_000_000 else 86_400_000_000_000
    requires p == LivePoint(logs, g, p.bucket)
    ensures LiveUsage(p, logs, len)
  {
    hide Tally, Total, TotalCost;
    var span := Between(Start(g, p.bucket), Start(g, p.bucket + 1));
    forall l: RequestLog ensures Covers(span, l.timestamp) <==> l.timestamp / len == p.bucket {
      InBucket(g, len, p.bucket, l.timestamp);
    }
    var own := (l: RequestLog) => l.timestamp / len == p.bucket;
    ColumnsOf(logs, span, Everyone, own);
  }

  // ----- what is kept -----

  /** Pruning keeps the logs of the hours that start at or after the cutoff, in their order. */
  lemma {:induction false} RetainMeans(rows: seq<Entry>, cutoff: Time) returns (at: seq<nat>)
    ensures Rising(at, |rows|) && |Retain(rows, cutoff)| == |at|
    ensures forall i :: 0 <= i < |at| ==> Retain(rows, cutoff)[i] == rows[at[i]]
    ensures forall n :: 0 <= n < |rows| ==>
      (n in at <==> rows[n].log.timestamp / 3_600_000_000_000 * 3_600_000_000_000 >= cutoff)
  {
    at := [];
    if rows != [] {
      at := RetainMeans(rows[..|rows| - 1], cutoff);
      if Keeps(cutoff, rows[|rows| - 1]) {
        at := at + [|rows| - 1];
      }
    }
  }

  /** A backfill takes up the logs of the last ninety days, in their order. */
  lemma {:induction false} LogsSinceMeans(table: seq<RequestLog>, since: Time) returns (at: seq<nat>)
    ensures Rising(at, |table|) && |LogsSince(table, since)| == |at|
    ensures forall i :: 0 <= i < |at| ==> LogsSince(table, since)[i] == table[at[i]]
    ensures forall n :: 0 <= n < |table| ==> (n in at <==> table[n].timestamp >= since)
  {
    at := [];
    if table != [] {
      var init, l := table[..|table| - 1], table[|table| - 1];
      at := LogsSinceMeans(init, since);
      assert LogsSince(table, since) == if l.timestamp >= since then LogsSince(init, since) + [l] else LogsSince(init, since);
      hide LogsSince;
      if l.timestamp >= since {
        at := at + [|table| - 1];
      }
    }
  }

  /** A backfilled log costs what the rates of its own provider and resolved model make of it, and is recorded at its
      own clock reading; ninety days are kept. */
  lemma BackfilledMeans(logs: seq<RequestLog>, costs: (string, string) -> Option<ProviderModel>, clock: nat -> Time, i: nat)
    requires i < |logs|
    ensures var r := Backfilled(logs, costs, clock)[i];
      && r.now == clock(i) && r.entry.log == logs[i]
      && r.entry.cost == ForRequestLog(Some(logs[i]), costs(logs[i].providerID, logs[i].resolvedModel))
    ensures RETENTION == 90 * 86_400_000_000_000 && PAGE == 500
  {
  }
}
