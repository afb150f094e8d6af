/** One hourly bucket: bucketStats, applyLog and weightedAvg of internal/stats/accumulator.go. */
module Buckets {
  import opened Prelude
  import opened Models
  import opened Pricing
  import opened Tallies

  /** The statistics of one model, provider or API key; `tokens` stays 0 for a provider. */
  datatype Group = Group(name: string, requests: int, avgLatencyMs: real, errors: int, tokens: int)

  type Groups = map<string, Group>

  datatype Bucket = Bucket(totals: Totals, byModel: Groups, byProvider: Groups, byAPIKey: Groups)

  const EMPTY := Bucket(NOTHING, map[], map[], map[])

  function By(b: Bucket, d: Dim): Groups {
    match d
    case ByModel => b.byModel
    case ByProvider => b.byProvider
    case ByAPIKey => b.byAPIKey
  }

  function WeightedAvg(a: real, aCount: int, b: real, bCount: int): real {
    if aCount + bCount == 0 then 0.0
    else (a * aCount as real + b * bCount as real) / (aCount + bCount) as real
  }

  function TokensOf(d: Dim, l: RequestLog): int {
    if d == ByProvider then 0 else OrZero(l.totalTokens)
  }

  function Raised(g: Group, d: Dim, l: RequestLog): Group {
    Group(g.name, g.requests + 1, WeightedAvg(g.avgLatencyMs, g.requests, l.totalTimeMs as real, 1),
      g.errors + (if Failed(l) then 1 else 0), g.tokens + TokensOf(d, l))
  }

  /** The log credited to its key, which gets its name from the first log that brings it up. */
  function Credit(m: Groups, d: Dim, l: RequestLog): Groups {
    var key := KeyOf(d, l);
    m[key := Raised(if key in m then m[key] else Group(NameOf(d, l), 0, 0.0, 0, 0), d, l)]
  }

  function Applied(b: Bucket, l: RequestLog, c: Breakdown): Bucket {
    Bucket(Plus(b.totals, Contribution(l, c)), Credit(b.byModel, ByModel, l), Credit(b.byProvider, ByProvider, l),
      Credit(b.byAPIKey, ByAPIKey, l))
  }

  function MergedGroup(cur: Group, g: Group): Group {
    Group(cur.name, cur.requests + g.requests,
      WeightedAvg(cur.avgLatencyMs, cur.requests, g.avgLatencyMs, g.requests), cur.errors + g.errors,
      cur.tokens + g.tokens)
  }

  function MergedAt<K>(agg: map<K, Group>, m: map<K, Group>, key: K): Group
    requires key in agg || key in m
  {
    if key !in m then agg[key] else if key !in agg then m[key] else MergedGroup(agg[key], m[key])
  }

  function Merged<K>(agg: map<K, Group>, m: map<K, Group>): map<K, Group> {
    map key | key in agg.Keys + m.Keys :: MergedAt(agg, m, key)
  }

  // ----- the object -----

  class BucketStats {
    var requests: int
    var successCount: int
    var errorCount: int
    var latencySumMs: int
    var inputTokens: int
    var promptTokens: int
    var completionTokens: int
    var totalTokens: int
    var cachedTokens: int
    var totalCostUSD: real
    var inputCostUSD: real
    var outputCostUSD: real
    var cachedCostUSD: real
    var byModel: Groups
    var byProvider: Groups
    var byAPIKey: Groups

    constructor ()
      ensures Value() == EMPTY
    {
      requests, successCount, errorCount, latencySumMs := 0, 0, 0, 0;
      inputTokens, promptTokens, completionTokens, totalTokens, cachedTokens := 0, 0, 0, 0, 0;
      totalCostUSD, inputCostUSD, outputCostUSD, cachedCostUSD := 0.0, 0.0, 0.0, 0.0;
      byModel, byProvider, byAPIKey := map[], map[], map[];
    }

    function Usage(): Tallies.Usage
      reads this
    {
      Tallies.Usage(requests, successCount, errorCount, inputTokens, promptTokens, completionTokens, totalTokens,
        cachedTokens, totalCostUSD, inputCostUSD, outputCostUSD, cachedCostUSD)
    }

    function Value(): Bucket
      reads this
    {
      Bucket(Totals(Usage(), latencySumMs), byModel, byProvider, byAPIKey)
    }

    method ApplyLog(log: RequestLog, costs: Breakdown)
      modifies this
      ensures Value() == Applied(old(Value()), log, costs)
    {
      CountUsage(log, costs);
      CreditKeys(log);
    }

    method CountUsage(log: RequestLog, costs: Breakdown)
      modifies this`requests, this`latencySumMs, this`successCount, this`errorCount
      modifies this`promptTokens, this`inputTokens, this`completionTokens, this`totalTokens, this`cachedTokens
      modifies this`totalCostUSD, this`inputCostUSD, this`outputCostUSD, this`cachedCostUSD
      ensures Totals(Usage(), latencySumMs) == Plus(old(Totals(Usage(), latencySumMs)), Contribution(log, costs))
    {
      CountRequest(log);
      CountTokens(log);
      totalCostUSD := totalCostUSD + costs.totalUSD;
      inputCostUSD := inputCostUSD + costs.inputUSD;
      outputCostUSD := outputCostUSD + costs.outputUSD;
      cachedCostUSD := cachedCostUSD + costs.cachedReadUSD;
    }

    method CreditKeys(log: RequestLog)
      modifies this`byModel, this`byProvider, this`byAPIKey
      ensures byModel == Credit(old(byModel), ByModel, log)
      ensures byProvider == Credit(old(byProvider), ByProvider, log)
      ensures byAPIKey == Credit(old(byAPIKey), ByAPIKey, log)
    {
      byModel := CreditTo(byModel, ByModel, log);
      byProvider := CreditTo(byProvider, ByProvider, log);
      byAPIKey := CreditTo(byAPIKey, ByAPIKey, log);
    }

    method CountRequest(log: RequestLog)
      modifies this`requests, this`latencySumMs, this`successCount, this`errorCount
      ensures requests == old(requests) + 1
      ensures latencySumMs == old(latencySumMs) + log.totalTimeMs
      ensures successCount == old(successCount) + if Succeeded(log) then 1 else 0
      ensures errorCount == old(errorCount) + if Failed(log) then 1 else 0
    {
      requests := requests + 1;
      latencySumMs := latencySumMs + log.totalTimeMs;
      if log.statusCode >= 200 && log.statusCode < 300 {
        successCount := successCount + 1;
      }
      if log.statusCode >= 400 {
        errorCount := errorCount + 1;
      }
    }

    method CountTokens(log: RequestLog)
      modifies this`promptTokens, this`inputTokens, this`completionTokens, this`totalTokens, this`cachedTokens
      ensures promptTokens == old(promptTokens) + OrZero(log.promptTokens)
      ensures inputTokens == old(inputTokens) + ClampedInput(log)
      ensures completionTokens == old(completionTokens) + OrZero(log.completionTokens)
      ensures totalTokens == old(totalTokens) + OrZero(log.totalTokens)
      ensures cachedTokens == old(cachedTokens) + OrZero(log.cachedTokens)
    {
      if log.promptTokens.Some? {
        promptTokens := promptTokens + log.promptTokens.value;
        var cached := 0;
        if log.cachedTokens.Some? {
          cached := log.cachedTokens.value;
        }
        inputTokens := inputTokens + Max(0, log.promptTokens.value - cached);
      }
      if log.completionTokens.Some? {
        completionTokens := completionTokens + log.completionTokens.value;
      }
      if log.totalTokens.Some? {
        totalTokens := totalTokens + log.totalTokens.value;
      }
      if log.cachedTokens.Some? {
        cachedTokens := cachedTokens + log.cachedTokens.value;
      }
    }
  }

  /** The part of applyLog that the three maps share. */
  method CreditTo(m: Groups, d: Dim, log: RequestLog) returns (credited: Groups)
    ensures credited == Credit(m, d, log)
  {
    var key := KeyOf(d, log);
    var g := Group(NameOf(d, log), 0, 0.0, 0, 0);
    if key in m {
      g := m[key];
    }
    g := g.(requests := g.requests + 1);
    g := g.(avgLatencyMs := WeightedAvg(g.avgLatencyMs, g.requests - 1, log.totalTimeMs as real, 1));
    if log.statusCode >= 400 {
      g := g.(errors := g.errors + 1);
    }
    if d != ByProvider && log.totalTokens.Some? {
      g := g.(tokens := g.tokens + log.totalTokens.value);
    }
    credited := m[key := g];
  }

  /** Merging one bucket's groups into the dashboard's, in whatever order the map yields its keys. */
  method MergeInto<K>(agg: map<K, Group>, m: map<K, Group>) returns (merged: map<K, Group>)
    ensures merged == Merged(agg, m)
  {
    merged := agg;
    var todo := m.Keys;
    ghost var done: map<K, Group> := map[];
    while todo != {}
      invariant todo <= m.Keys
      invariant forall key :: key in done <==> key in m && key !in todo
      invariant forall key :: key in done ==> done[key] == m[key]
      invariant merged == Merged(agg, done)
      decreases |todo|
    {
      var key :| key in todo;
      todo := todo - {key};
      MergedStep(agg, done, key, m[key]);
      merged := merged[key := if key in merged then Combine(merged[key], m[key]) else m[key]];
      done := done[key := m[key]];
    }
    assert done == m;
  }

  lemma MergedStep<K>(agg: map<K, Group>, done: map<K, Group>, key: K, g: Group)
    requires key !in done
    ensures Merged(agg, done[key := g])
      == Merged(agg, done)[key := if key in Merged(agg, done) then MergedGroup(Merged(agg, done)[key], g) else g]
  {
  }

  /** The counts are added first, and the average then weighted by what the count was before. */
  function Combine(cur: Group, g: Group): (r: Group)
    ensures r == MergedGroup(cur, g)
  {
    var sum := cur.(requests := cur.requests + g.requests, errors := cur.errors + g.errors,
      tokens := cur.tokens + g.tokens);
    sum.(avgLatencyMs := WeightedAvg(sum.avgLatencyMs, sum.requests - g.requests, g.avgLatencyMs, g.requests))
  }

  // ----- what a bucket says about the logs -----

  /** The mean latency of a tally. */
  function Mean(t: Totals): real {
    if t.usage.requests == 0 then 0.0 else t.latencyMs as real / t.usage.requests as real
  }

  predicate Reports(g: Group, t: Totals, d: Dim) {
    && g.requests == t.usage.requests
    && g.avgLatencyMs == Mean(t)
    && g.errors == t.usage.errors
    && g.tokens == if d == ByProvider then 0 else t.usage.totalTokens
  }

  /** A key is listed exactly when a selected log has it, with the numbers of those logs and the name one of
      them gives it. */
  predicate KeyHolds(m: Groups, rows: seq<Entry>, span: Span, d: Dim, key: string) {
    && (key in m <==> Requests(rows, span, Holder(d, key)) > 0)
    && (key in m ==>
      && Reports(m[key], Tally(rows, span, Holder(d, key)), d)
      && Requests(rows, span, Titled(d, key, m[key].name)) > 0)
  }

  ghost predicate GroupsHold(m: Groups, rows: seq<Entry>, span: Span, d: Dim) {
    forall key :: KeyHolds(m, rows, span, d, key)
  }

  ghost predicate BucketHolds(b: Bucket, rows: seq<Entry>, h: int) {
    b.totals == Tally(rows, Hours({h}), Everyone) && forall d :: GroupsHold(By(b, d), rows, Hours({h}), d)
  }

  /** Averaging two averages by their counts is the average over both. */
  lemma PooledMean(a: Totals, b: Totals)
    requires a.usage.requests >= 0 && b.usage.requests >= 0
    requires a.usage.requests == 0 ==> a.latencyMs == 0
    requires b.usage.requests == 0 ==> b.latencyMs == 0
    ensures WeightedAvg(Mean(a), a.usage.requests, Mean(b), b.usage.requests) == Mean(Plus(a, b))
  {
    MeanTimesCount(a);
    MeanTimesCount(b);
  }

  lemma MeanTimesCount(a: Totals)
    requires a.usage.requests >= 0
    requires a.usage.requests == 0 ==> a.latencyMs == 0
    ensures Mean(a) * a.usage.requests as real == a.latencyMs as real
  {
  }

  lemma RaisedReports(g: Group, t: Totals, d: Dim, r: Entry)
    requires Reports(g, t, d) && t.usage.requests >= 0 && (t.usage.requests == 0 ==> t.latencyMs == 0)
    ensures Reports(Raised(g, d, r.log), Plus(t, Of(r)), d)
  {
    PooledMean(t, Of(r));
    assert Mean(Of(r)) == r.log.totalTimeMs as real;
  }

  lemma MergedReports(g: Group, t: Totals, g': Group, t': Totals, d: Dim)
    requires Reports(g, t, d) && t.usage.requests > 0
    requires Reports(g', t', d) && t'.usage.requests > 0
    ensures Reports(MergedGroup(g, g'), Plus(t, t'), d)
  {
    PooledMean(t, t');
  }

  lemma CreditOwnKey(m: Groups, rows: seq<Entry>, span: Span, d: Dim, r: Entry, key: string)
    requires KeyHolds(m, rows, span, d, key) && Covers(span, r.log.timestamp) && KeyOf(d, r.log) == key
    ensures KeyHolds(Credit(m, d, r.log), rows + [r], span, d, key)
  {
    var g := if key in m then m[key] else Group(NameOf(d, r.log), 0, 0.0, 0, 0);
    NoRequestsNothing(rows, span, Holder(d, key));
    RaisedReports(g, Tally(rows, span, Holder(d, key)), d, r);
    TallySnoc(rows, r, span, Holder(d, key));
    RequestsSnoc(rows, r, span, Titled(d, key, g.name));
  }

  lemma CreditOtherKey(m: Groups, rows: seq<Entry>, span: Span, d: Dim, r: Entry, key: string)
    requires KeyHolds(m, rows, span, d, key) && KeyOf(d, r.log) != key
    ensures KeyHolds(Credit(m, d, r.log), rows + [r], span, d, key)
  {
    TallySnoc(rows, r, span, Holder(d, key));
    if key in m {
      RequestsSnoc(rows, r, span, Titled(d, key, m[key].name));
    }
  }

  lemma OtherKeyHolds(m: Groups, rows: seq<Entry>, span: Span, d: Dim, r: Entry, key: string)
    requires KeyHolds(m, rows, span, d, key) && !Covers(span, r.log.timestamp)
    ensures KeyHolds(m, rows + [r], span, d, key)
  {
    TallySnoc(rows, r, span, Holder(d, key));
    if key in m {
      RequestsSnoc(rows, r, span, Titled(d, key, m[key].name));
    }
  }

  /** A bucket that held for the logs so far, with one more log applied, holds for them and the new one. */
  lemma AppliedBucketHolds(b: Bucket, rows: seq<Entry>, r: Entry)
    requires BucketHolds(b, rows, HourOf(r.log.timestamp))
    ensures BucketHolds(Applied(b, r.log, r.cost), rows + [r], HourOf(r.log.timestamp))
  {
    var span := Hours({HourOf(r.log.timestamp)});
    TallySnoc(rows, r, span, Everyone);
    forall d, key ensures KeyHolds(By(Applied(b, r.log, r.cost), d), rows + [r], span, d, key) {
      assert GroupsHold(By(b, d), rows, span, d);
      if KeyOf(d, r.log) == key {
        CreditOwnKey(By(b, d), rows, span, d, r, key);
      } else {
        CreditOtherKey(By(b, d), rows, span, d, r, key);
      }
    }
  }

  lemma UntouchedBucketHolds(b: Bucket, rows: seq<Entry>, r: Entry, h: int)
    requires BucketHolds(b, rows, h) && HourOf(r.log.timestamp) != h
    ensures BucketHolds(b, rows + [r], h)
  {
    TallySnoc(rows, r, Hours({h}), Everyone);
    forall d, key ensures KeyHolds(By(b, d), rows + [r], Hours({h}), d, key) {
      assert GroupsHold(By(b, d), rows, Hours({h}), d);
      OtherKeyHolds(By(b, d), rows, Hours({h}), d, r, key);
    }
  }

  lemma EmptyBucketHolds(rows: seq<Entry>, h: int)
    requires Requests(rows, Hours({h}), Everyone) == 0
    ensures BucketHolds(EMPTY, rows, h)
  {
    NoRequestsNothing(rows, Hours({h}), Everyone);
    forall d, key ensures KeyHolds(By(EMPTY, d), rows, Hours({h}), d, key) {
      NoRequestsNothing(rows, Hours({h}), Holder(d, key));
      if Requests(rows, Hours({h}), Holder(d, key)) > 0 {
        var r := SomeRequest(rows, Hours({h}), Holder(d, key));
        ItsOwnRequest(rows, Hours({h}), Everyone, r);
      }
    }
  }

  /** Retaining whole hours leaves the buckets of those hours true. */
  lemma RetainedBucketHolds(b: Bucket, rows: seq<Entry>, h: int, cutoff: Time)
    requires BucketHolds(b, rows, h) && h * HOUR >= cutoff
    ensures BucketHolds(b, Retain(rows, cutoff), h)
  {
    RetainKeepsWholeHours(rows, cutoff, h, Everyone);
    forall d, key ensures KeyHolds(By(b, d), Retain(rows, cutoff), Hours({h}), d, key) {
      assert KeyHolds(By(b, d), rows, Hours({h}), d, key);
      RetainKeepsWholeHours(rows, cutoff, h, Holder(d, key));
      if key in By(b, d) {
        RetainKeepsWholeHours(rows, cutoff, h, Titled(d, key, By(b, d)[key].name));
      }
    }
  }

  /** And a bucket right for the logs retained is right for all of them, if its hour is. */
  lemma UnprunedBucketHolds(b: Bucket, rows: seq<Entry>, h: int, cutoff: Time)
    requires BucketHolds(b, Retain(rows, cutoff), h) && h * HOUR >= cutoff
    ensures BucketHolds(b, rows, h)
  {
    RetainKeepsWholeHours(rows, cutoff, h, Everyone);
    forall d, key ensures KeyHolds(By(b, d), rows, Hours({h}), d, key) {
      assert KeyHolds(By(b, d), Retain(rows, cutoff), Hours({h}), d, key);
      RetainKeepsWholeHours(rows, cutoff, h, Holder(d, key));
      if key in By(b, d) {
        RetainKeepsWholeHours(rows, cutoff, h, Titled(d, key, By(b, d)[key].name));
      }
    }
  }

  /** Groups of two disjoint spans merge into the groups of both. */
  lemma MergedGroupsHold(agg: Groups, m: Groups, rows: seq<Entry>, whole: Span, left: Span, right: Span, d: Dim)
    requires GroupsHold(agg, rows, left, d) && GroupsHold(m, rows, right, d)
    requires forall t :: Splits(whole, left, right, t)
    ensures GroupsHold(Merged(agg, m), rows, whole, d)
  {
    forall key ensures KeyHolds(Merged(agg, m), rows, whole, d, key) {
      MergedKeyHolds(agg, m, rows, whole, left, right, d, key);
    }
  }

  lemma MergedKeyHolds(agg: Groups, m: Groups, rows: seq<Entry>, whole: Span, left: Span, right: Span, d: Dim, key: string)
    requires KeyHolds(agg, rows, left, d, key) && KeyHolds(m, rows, right, d, key)
    requires forall t :: Splits(whole, left, right, t)
    ensures KeyHolds(Merged(agg, m), rows, whole, d, key)
  {
    RequestsSplit(rows, whole, left, right, Holder(d, key));
    if key in agg || key in m {
      RequestsSplit(rows, whole, left, right, Titled(d, key, MergedAt(agg, m, key).name));
      MergedAtReports(agg, m, rows, whole, left, right, d, key);
    }
  }

  lemma MergedAtReports(agg: Groups, m: Groups, rows: seq<Entry>, whole: Span, left: Span, right: Span, d: Dim, key: string)
    requires key in agg || key in m
    requires KeyHolds(agg, rows, left, d, key) && KeyHolds(m, rows, right, d, key)
    requires forall t :: Splits(whole, left, right, t)
    ensures Reports(MergedAt(agg, m, key), Tally(rows, whole, Holder(d, key)), d)
  {
    var a, b := Tally(rows, left, Holder(d, key)), Tally(rows, right, Holder(d, key));
    TallySplit(rows, whole, left, right, Holder(d, key));
    NoRequestsNothing(rows, left, Holder(d, key));
    NoRequestsNothing(rows, right, Holder(d, key));
    if key !in m {
      PlusNothing(a);
    } else if key !in agg {
      PlusNothing(b);
    } else {
      MergedReports(agg[key], a, m[key], b, d);
    }
  }
}
