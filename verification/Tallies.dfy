/** Adding up request logs: the reference that the hourly buckets, the dashboard and both time series are
    compared with. */
module Tallies {
  import opened Prelude
  import opened Models
  import opened Pricing

  const HOUR: int := 3_600_000_000_000

  /** The hour a timestamp falls in; it stands for the text of the bucket key. */
  function HourOf(t: Time): int {
    t / HOUR
  }

  /** The numbers of one chart point. */
  datatype Usage = Usage(
    requests: int,
    successes: int,
    errors: int,
    inputTokens: int,
    promptTokens: int,
    completionTokens: int,
    totalTokens: int,
    cachedTokens: int,
    totalCost: real,
    inputCost: real,
    outputCost: real,
    cachedCost: real)

  const ZERO := Usage(0, 0, 0, 0, 0, 0, 0, 0, 0.0, 0.0, 0.0, 0.0)

  function AddUsage(a: Usage, b: Usage): Usage {
    Usage(a.requests + b.requests, a.successes + b.successes, a.errors + b.errors,
      a.inputTokens + b.inputTokens, a.promptTokens + b.promptTokens, a.completionTokens + b.completionTokens,
      a.totalTokens + b.totalTokens, a.cachedTokens + b.cachedTokens, a.totalCost + b.totalCost,
      a.inputCost + b.inputCost, a.outputCost + b.outputCost, a.cachedCost + b.cachedCost)
  }

  datatype Totals = Totals(usage: Usage, latencyMs: int)

  const NOTHING := Totals(ZERO, 0)

  function Plus(a: Totals, b: Totals): Totals {
    Totals(AddUsage(a.usage, b.usage), a.latencyMs + b.latencyMs)
  }

  predicate Succeeded(l: RequestLog) {
    200 <= l.statusCode < 300
  }

  predicate Failed(l: RequestLog) {
    l.statusCode >= 400
  }

  /** What one log at a given cost contributes. */
  function Contribution(l: RequestLog, c: Breakdown): Totals {
    Totals(
      Usage(1, if Succeeded(l) then 1 else 0, if Failed(l) then 1 else 0, ClampedInput(l), OrZero(l.promptTokens),
        OrZero(l.completionTokens), OrZero(l.totalTokens), OrZero(l.cachedTokens), c.totalUSD, c.inputUSD, c.outputUSD,
        c.cachedReadUSD),
      l.totalTimeMs)
  }

  /** A log with the cost it had when it was counted. */
  datatype Entry = Entry(log: RequestLog, cost: Breakdown)

  function Of(r: Entry): Totals {
    Contribution(r.log, r.cost)
  }

  // ----- whose logs, and when -----

  datatype Dim = ByModel | ByProvider | ByAPIKey

  /** Usage belongs to the backend model; a log without one is filed under the name the client asked for. */
  function KeyOf(d: Dim, l: RequestLog): string {
    match d
    case ByModel => if l.resolvedModel == "" then l.requestedModel else l.resolvedModel
    case ByProvider => l.providerID
    case ByAPIKey => l.apiKeyID
  }

  function NameOf(d: Dim, l: RequestLog): string {
    match d
    case ByModel => KeyOf(ByModel, l)
    case ByProvider => l.providerName
    case ByAPIKey => if l.apiKeyID == "" then "No API key" else if l.apiKeyName == "" then l.apiKeyID else l.apiKeyName
  }

  /** `Titled` narrows the logs of a key to those that show it under a given name. */
  datatype Who = Everyone | Holder(dim: Dim, key: string) | Titled(titleDim: Dim, titleKey: string, name: string)

  datatype Span = Ever | Hours(hours: set<int>) | Between(from: Time, before: Time)

  predicate Concerns(who: Who, l: RequestLog) {
    match who
    case Everyone => true
    case Holder(d, key) => KeyOf(d, l) == key
    case Titled(d, key, name) => KeyOf(d, l) == key && NameOf(d, l) == name
  }

  predicate Covers(span: Span, t: Time) {
    match span
    case Ever => true
    case Hours(hours) => HourOf(t) in hours
    case Between(from, before) => from <= t < before
  }

  predicate Selects(span: Span, who: Who, r: Entry) {
    Covers(span, r.log.timestamp) && Concerns(who, r.log)
  }

  function Tally(rows: seq<Entry>, span: Span, who: Who): Totals {
    if rows == [] then NOTHING
    else
      var rest, r := Tally(rows[..|rows| - 1], span, who), rows[|rows| - 1];
      if Selects(span, who, r) then Plus(rest, Of(r)) else rest
  }

  /** The rows of hours that start no earlier than `cutoff`, in their order. */
  function Retain(rows: seq<Entry>, cutoff: Time): seq<Entry> {
    if rows == [] then []
    else
      var rest, r := Retain(rows[..|rows| - 1], cutoff), rows[|rows| - 1];
      if Keeps(cutoff, r) then rest + [r] else rest
  }

  predicate Keeps(cutoff: Time, r: Entry) {
    HourOf(r.log.timestamp) * HOUR >= cutoff
  }

  // ----- laws -----

  lemma TallySnoc(rows: seq<Entry>, r: Entry, span: Span, who: Who)
    ensures Tally(rows + [r], span, who)
      == if Selects(span, who, r) then Plus(Tally(rows, span, who), Of(r)) else Tally(rows, span, who)
  {
    assert (rows + [r])[..|rows|] == rows;
  }

  lemma RetainSnoc(rows: seq<Entry>, r: Entry, cutoff: Time)
    ensures Retain(rows + [r], cutoff) == if Keeps(cutoff, r) then Retain(rows, cutoff) + [r] else Retain(rows, cutoff)
  {
    assert (rows + [r])[..|rows|] == rows;
  }

  lemma PlusShuffle(a: Totals, b: Totals, c: Totals)
    ensures Plus(Plus(a, b), c) == Plus(a, Plus(b, c)) == Plus(Plus(a, c), b)
  {
  }

  lemma PlusNothing(a: Totals)
    ensures Plus(a, NOTHING) == a == Plus(NOTHING, a)
  {
  }

  predicate Splits(whole: Span, left: Span, right: Span, t: Time) {
    (Covers(whole, t) <==> Covers(left, t) || Covers(right, t)) && !(Covers(left, t) && Covers(right, t))
  }

  /** A span cut in two loses nothing and counts nothing twice. */
  lemma {:induction false} TallySplit(rows: seq<Entry>, whole: Span, left: Span, right: Span, who: Who)
    requires forall t :: Splits(whole, left, right, t)
    ensures Tally(rows, whole, who) == Plus(Tally(rows, left, who), Tally(rows, right, who))
  {
    if rows != [] {
      var init, r := rows[..|rows| - 1], rows[|rows| - 1];
      TallySplit(init, whole, left, right, who);
      assert Splits(whole, left, right, r.log.timestamp);
      PlusShuffle(Tally(init, left, who), Tally(init, right, who), Of(r));
    }
  }

  lemma {:induction false} TallySame(rows: seq<Entry>, a: Span, b: Span, who: Who)
    requires forall r :: r in rows ==> (Covers(a, r.log.timestamp) <==> Covers(b, r.log.timestamp))
    ensures Tally(rows, a, who) == Tally(rows, b, who)
  {
    if rows != [] {
      TallySame(rows[..|rows| - 1], a, b, who);
    }
  }

  lemma {:induction false} TallyNone(rows: seq<Entry>, span: Span, who: Who)
    requires forall r :: r in rows ==> !Selects(span, who, r)
    ensures Tally(rows, span, who) == NOTHING
  {
    if rows != [] {
      TallyNone(rows[..|rows| - 1], span, who);
    }
  }

  /** A tally of no requests is empty. */
  lemma {:induction false} NoRequestsNothing(rows: seq<Entry>, span: Span, who: Who)
    ensures Tally(rows, span, who).usage.requests >= 0
    ensures Tally(rows, span, who).usage.requests == 0 ==> Tally(rows, span, who) == NOTHING
  {
    if rows != [] {
      NoRequestsNothing(rows[..|rows| - 1], span, who);
    }
  }

  /** How many logs are selected. */
  function Requests(rows: seq<Entry>, span: Span, who: Who): (n: int)
    ensures n >= 0
  {
    NoRequestsNothing(rows, span, who);
    Tally(rows, span, who).usage.requests
  }

  lemma RequestsSnoc(rows: seq<Entry>, r: Entry, span: Span, who: Who)
    ensures Requests(rows + [r], span, who) == Requests(rows, span, who) + if Selects(span, who, r) then 1 else 0
  {
    TallySnoc(rows, r, span, who);
  }

  lemma RequestsSplit(rows: seq<Entry>, whole: Span, left: Span, right: Span, who: Who)
    requires forall t :: Splits(whole, left, right, t)
    ensures Requests(rows, whole, who) == Requests(rows, left, who) + Requests(rows, right, who)
  {
    TallySplit(rows, whole, left, right, who);
  }

  /** A tally of requests names one of them. */
  lemma {:induction false} SomeRequest(rows: seq<Entry>, span: Span, who: Who) returns (r: Entry)
    requires Requests(rows, span, who) > 0
    ensures r in rows && Selects(span, who, r)
  {
    var n := |rows| - 1;
    if Selects(span, who, rows[n]) {
      r := rows[n];
    } else {
      r := SomeRequest(rows[..n], span, who);
    }
  }

  lemma {:induction false} ItsOwnRequest(rows: seq<Entry>, span: Span, who: Who, r: Entry)
    requires r in rows && Selects(span, who, r)
    ensures Requests(rows, span, who) > 0
  {
    var n := |rows| - 1;
    NoRequestsNothing(rows[..n], span, who);
    if rows[n] != r {
      ItsOwnRequest(rows[..n], span, who, r);
    }
  }

  /** Retaining keeps whole hours: an hour is left as it was or emptied. */
  lemma {:induction false} RetainKeepsWholeHours(rows: seq<Entry>, cutoff: Time, h: int, who: Who)
    ensures Tally(Retain(rows, cutoff), Hours({h}), who)
      == if h * HOUR >= cutoff then Tally(rows, Hours({h}), who) else NOTHING
  {
    if rows != [] {
      var init, r := rows[..|rows| - 1], rows[|rows| - 1];
      RetainKeepsWholeHours(init, cutoff, h, who);
      TallySnoc(Retain(init, cutoff), r, Hours({h}), who);
    }
  }

  /** Hours picked by their start, and the rows retained from that start on, tally the same. */
  lemma {:induction false} RetainedTally(rows: seq<Entry>, since: Time, hours: set<int>, who: Who)
    requires forall r :: r in rows ==> (HourOf(r.log.timestamp) in hours <==> Keeps(since, r))
    ensures Tally(rows, Hours(hours), who) == Tally(Retain(rows, since), Ever, who)
  {
    if rows != [] {
      var init, r := rows[..|rows| - 1], rows[|rows| - 1];
      RetainedTally(init, since, hours, who);
      TallySnoc(Retain(init, since), r, Ever, who);
    }
  }

  /** Of two cutoffs the later one decides. */
  lemma {:induction false} RetainTwice(rows: seq<Entry>, a: Time, b: Time)
    ensures Retain(Retain(rows, a), b) == Retain(rows, Max(a, b))
  {
    if rows != [] {
      var init, r := rows[..|rows| - 1], rows[|rows| - 1];
      RetainTwice(init, a, b);
      RetainSnoc(Retain(init, a), r, b);
    }
  }

  // ----- every log has one key in each dimension -----

  /** The tallies of the first `k` keys added up. */
  function SumOverKeys(rows: seq<Entry>, span: Span, d: Dim, keys: seq<string>, k: nat): Totals
    requires k <= |keys|
  {
    if k == 0 then NOTHING
    else Plus(SumOverKeys(rows, span, d, keys, k - 1), Tally(rows, span, Holder(d, keys[k - 1])))
  }

  predicate Distinct(keys: seq<string>) {
    forall i, j :: 0 <= i < j < |keys| ==> keys[i] != keys[j]
  }

  lemma SumIsPlus(rows: seq<Entry>, span: Span, d: Dim, keys: seq<string>, k: nat, before: Totals, last: Totals)
    requires 0 < k <= |keys|
    requires SumOverKeys(rows, span, d, keys, k - 1) == before && Tally(rows, span, Holder(d, keys[k - 1])) == last
    ensures SumOverKeys(rows, span, d, keys, k) == Plus(before, last)
  {
  }

  lemma {:induction false} AnotherKeysRow(rows: seq<Entry>, r: Entry, span: Span, d: Dim, keys: seq<string>, k: nat)
    requires k <= |keys|
    requires !Covers(span, r.log.timestamp) || forall i :: 0 <= i < k ==> keys[i] != KeyOf(d, r.log)
    ensures SumOverKeys(rows + [r], span, d, keys, k) == SumOverKeys(rows, span, d, keys, k)
  {
    if k > 0 {
      AnotherKeysRow(rows, r, span, d, keys, k - 1);
      TallySnoc(rows, r, span, Holder(d, keys[k - 1]));
    }
  }

  lemma {:induction false} OneKeysRow(rows: seq<Entry>, r: Entry, span: Span, d: Dim, keys: seq<string>, k: nat, own: nat)
    requires Distinct(keys) && own < k <= |keys|
    requires Covers(span, r.log.timestamp) && keys[own] == KeyOf(d, r.log)
    ensures SumOverKeys(rows + [r], span, d, keys, k) == Plus(SumOverKeys(rows, span, d, keys, k), Of(r))
  {
    var before, last, share := SumOverKeys(rows, span, d, keys, k - 1), Tally(rows, span, Holder(d, keys[k - 1])), Of(r);
    SumIsPlus(rows, span, d, keys, k, before, last);
    PlusShuffle(before, last, share);
    TallySnoc(rows, r, span, Holder(d, keys[k - 1]));
    if own == k - 1 {
      AnotherKeysRow(rows, r, span, d, keys, k - 1);
      SumIsPlus(rows + [r], span, d, keys, k, before, Plus(last, share));
    } else {
      OneKeysRow(rows, r, span, d, keys, k - 1, own);
      SumIsPlus(rows + [r], span, d, keys, k, Plus(before, share), last);
    }
  }

  lemma {:induction false} NothingToSum(rows: seq<Entry>, span: Span, d: Dim, keys: seq<string>, k: nat, none: Totals)
    requires k <= |keys| && none == NOTHING
    requires forall i :: 0 <= i < k ==> Tally(rows, span, Holder(d, keys[i])) == none
    ensures SumOverKeys(rows, span, d, keys, k) == none
  {
    if k > 0 {
      NothingToSum(rows, span, d, keys, k - 1, none);
      SumIsPlus(rows, span, d, keys, k, none, none);
      PlusNothing(none);
    }
  }

  /** Summed over models, over providers or over API keys, the tallies give the totals. */
  lemma {:induction false} KeysPartitionTheLogs(rows: seq<Entry>, span: Span, d: Dim, keys: seq<string>)
    requires Distinct(keys)
    requires forall r :: r in rows && Covers(span, r.log.timestamp) ==> KeyOf(d, r.log) in keys
    ensures SumOverKeys(rows, span, d, keys, |keys|) == Tally(rows, span, Everyone)
  {
    if rows == [] {
      NothingToSum(rows, span, d, keys, |keys|, NOTHING);
    } else {
      var init, r := rows[..|rows| - 1], rows[|rows| - 1];
      assert rows == init + [r];
      KeysPartitionTheLogs(init, span, d, keys);
      if Covers(span, r.log.timestamp) {
        var own :| 0 <= own < |keys| && keys[own] == KeyOf(d, r.log);
        OneKeysRow(init, r, span, d, keys, |keys|, own);
      } else {
        AnotherKeysRow(init, r, span, d, keys, |keys|);
      }
    }
  }
}
