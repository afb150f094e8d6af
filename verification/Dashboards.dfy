/** What the dashboard of internal/stats/accumulator.go says about the logs, read field by field: which logs each
    entry of a list counts, and what it shows. */
module Dashboards {
  import opened Prelude
  import opened Models
  import opened Pricing
  import opened Tallies
  import opened Buckets
  import opened Accumulator

  /** A column added up over the logs. */
  function Total(logs: seq<Entry>, column: RequestLog -> int): int {
    if logs == [] then 0 else Total(logs[..|logs| - 1], column) + column(logs[|logs| - 1].log)
  }

  function Quotient(a: int, b: int): (q: real)
    ensures b != 0 ==> q * b as real == a as real
  {
    if b == 0 then 0.0 else a as real / b as real
  }

  function TotalCost(logs: seq<Entry>, column: Breakdown -> real, within: RequestLog -> bool): real {
    if logs == [] then 0.0
    else
      var e := logs[|logs| - 1];
      TotalCost(logs[..|logs| - 1], column, within) + if within(e.log) then column(e.cost) else 0.0
  }

  /** The numbers of the logs that `own` picks out: how many there are, how many of them answered 400 or more, their
      tokens and their mean latency. */
  ghost predicate NumbersOf(g: Group, logs: seq<Entry>, own: RequestLog -> bool, tokens: bool) {
    && g.requests == Total(logs, (l: RequestLog) => if own(l) then 1 else 0)
    && g.errors == Total(logs, (l: RequestLog) => if own(l) && l.statusCode >= 400 then 1 else 0)
    && g.tokens == (if !tokens then 0
      else Total(logs, (l: RequestLog) => if own(l) && l.totalTokens.Some? then l.totalTokens.value else 0))
    && g.avgLatencyMs == Quotient(Total(logs, (l: RequestLog) => if own(l) then l.totalTimeMs else 0), g.requests)
  }

  /** There is an entry of `key` when there are such logs; only one; and it shows their numbers. */
  ghost predicate CountsExactly(list: seq<Listing>, logs: seq<Entry>, key: string, own: RequestLog -> bool, tokens: bool) {
    && ((exists i :: 0 <= i < |list| && list[i].key == key) <==> (exists e :: e in logs && own(e.log)))
    && (forall i, j :: 0 <= i < |list| && 0 <= j < |list| && list[i].key == key == list[j].key ==> i == j)
    && forall i :: 0 <= i < |list| && list[i].key == key ==> NumbersOf(list[i].group, logs, own, tokens)
  }

  lemma {:induction false} ColumnsOfTally(logs: seq<Entry>, who: Who, own: RequestLog -> bool)
    requires forall l :: Concerns(who, l) <==> own(l)
    ensures var t := Tally(logs, Ever, who);
      && t.usage.requests == Total(logs, (l: RequestLog) => if own(l) then 1 else 0)
      && t.usage.errors == Total(logs, (l: RequestLog) => if own(l) && l.statusCode >= 400 then 1 else 0)
      && t.usage.totalTokens == Total(logs, (l: RequestLog) => if own(l) && l.totalTokens.Some? then l.totalTokens.value else 0)
      && t.latencyMs == Total(logs, (l: RequestLog) => if own(l) then l.totalTimeMs else 0)
  {
    if logs != [] {
      ColumnsOfTally(logs[..|logs| - 1], who, own);
    }
  }

  lemma ReportedNumbers(g: Group, logs: seq<Entry>, d: Dim, key: string, own: RequestLog -> bool)
    requires Reports(g, Tally(logs, Ever, Holder(d, key)), d)
    requires forall l :: KeyOf(d, l) == key <==> own(l)
    ensures NumbersOf(g, logs, own, d != ByProvider)
  {
    hide Tally, Total, KeyOf;
    ColumnsOfTally(logs, Holder(d, key), own);
  }

  lemma ListCounts(list: seq<Listing>, logs: seq<Entry>, d: Dim, key: string, own: RequestLog -> bool)
    requires ListHolds(list, logs, d)
    requires forall l :: KeyOf(d, l) == key <==> own(l)
    ensures CountsExactly(list, logs, key, own, d != ByProvider)
  {
    hide Tally, KeyOf, BusiestFirst, NumbersOf, Reports;
    var m :| ListsAll(list, m) && GroupsHold(m, logs, Ever, d);
    assert KeyHolds(m, logs, Ever, d, key);
    hide GroupsHold;
    ListedWhenLogged(list, m, logs, d, key, own);
    forall i, j | 0 <= i < |list| && 0 <= j < |list| && list[i].key == key == list[j].key ensures i == j {
      assert KeysOf(list)[i] == KeysOf(list)[j];
    }
    forall i | 0 <= i < |list| && list[i].key == key ensures NumbersOf(list[i].group, logs, own, d != ByProvider) {
      ReportedNumbers(m[key], logs, d, key, own);
    }
  }

  lemma ListedWhenLogged(list: seq<Listing>, m: Groups, logs: seq<Entry>, d: Dim, key: string, own: RequestLog -> bool)
    requires ListsAll(list, m) && KeyHolds(m, logs, Ever, d, key)
    requires forall l :: KeyOf(d, l) == key <==> own(l)
    ensures (exists i :: 0 <= i < |list| && list[i].key == key) <==> (exists e :: e in logs && own(e.log))
  {
    hide Tally, KeyOf, Requests;
    var who := Holder(d, key);
    if e :| e in logs && own(e.log) {
      ItsOwnRequest(logs, Ever, who, e);
      assert key in KeysOf(list);
    }
    if Requests(logs, Ever, who) > 0 {
      var e := SomeRequest(logs, Ever, who);
      assert own(e.log);
    }
  }

  /** The name shown is one that some log of the key gives. */
  lemma ListNames(list: seq<Listing>, logs: seq<Entry>, d: Dim, i: nat) returns (e: Entry)
    requires ListHolds(list, logs, d) && i < |list|
    ensures e in logs && KeyOf(d, e.log) == list[i].key && NameOf(d, e.log) == list[i].group.name
  {
    var m :| ListsAll(list, m) && GroupsHold(m, logs, Ever, d);
    assert KeyHolds(m, logs, Ever, d, list[i].key);
    e := SomeRequest(logs, Ever, Titled(d, list[i].key, list[i].group.name));
  }

  /** Usage belongs to the backend model: the entry of a model counts the logs resolved to it, and of the logs
      without a resolved model those that asked for it by name. */
  lemma ModelsAreResolved(out: Dashboard, logs: seq<Entry>, model: string)
    requires Summarizes(out, logs)
    ensures CountsExactly(out.byModel, logs, model,
      (l: RequestLog) => if l.resolvedModel != "" then l.resolvedModel == model else l.requestedModel == model, true)
    ensures forall i :: 0 <= i < |out.byModel| ==> out.byModel[i].group.name == out.byModel[i].key
  {
    assert ListHolds(Listed(out, ByModel), logs, ByModel);
    ListCounts(out.byModel, logs, ByModel, model,
      (l: RequestLog) => if l.resolvedModel != "" then l.resolvedModel == model else l.requestedModel == model);
    forall i | 0 <= i < |out.byModel| ensures out.byModel[i].group.name == out.byModel[i].key {
      var e := ListNames(out.byModel, logs, ByModel, i);
    }
  }

  ghost predicate ShowsAProviderName(shown: Listing, logs: seq<Entry>) {
    exists e :: e in logs && e.log.providerID == shown.key && e.log.providerName == shown.group.name
  }

  /** Providers are told apart by id, show a name that one of their logs carries, and count no tokens. */
  lemma ProvidersAreByID(out: Dashboard, logs: seq<Entry>, id: string)
    requires Summarizes(out, logs)
    ensures CountsExactly(out.byProvider, logs, id, (l: RequestLog) => l.providerID == id, false)
    ensures forall i :: 0 <= i < |out.byProvider| ==> ShowsAProviderName(out.byProvider[i], logs)
  {
    assert ListHolds(Listed(out, ByProvider), logs, ByProvider);
    ListCounts(out.byProvider, logs, ByProvider, id, (l: RequestLog) => l.providerID == id);
    forall i | 0 <= i < |out.byProvider| ensures ShowsAProviderName(out.byProvider[i], logs)
    {
      var e := ListNames(out.byProvider, logs, ByProvider, i);
    }
  }

  ghost predicate ShowsItsKey(shown: Listing, logs: seq<Entry>) {
    exists e :: e in logs && e.log.apiKeyID == shown.key && shown.group.name == (if shown.key == "" then "No API key"
      else if e.log.apiKeyName == "" then shown.key else e.log.apiKeyName)
  }

  /** API keys too; a key without a name shows its id, and the requests made without a key are listed as such. */
  lemma APIKeysAreByID(out: Dashboard, logs: seq<Entry>, id: string)
    requires Summarizes(out, logs)
    ensures CountsExactly(out.byAPIKey, logs, id, (l: RequestLog) => l.apiKeyID == id, true)
    ensures forall i :: 0 <= i < |out.byAPIKey| ==> ShowsItsKey(out.byAPIKey[i], logs)
  {
    assert ListHolds(Listed(out, ByAPIKey), logs, ByAPIKey);
    ListCounts(out.byAPIKey, logs, ByAPIKey, id, (l: RequestLog) => l.apiKeyID == id);
    forall i | 0 <= i < |out.byAPIKey| ensures ShowsItsKey(out.byAPIKey[i], logs)
    {
      var e := ListNames(out.byAPIKey, logs, ByAPIKey, i);
    }
  }

  /** The totals are those of all the logs. */
  lemma DashboardTotals(out: Dashboard, logs: seq<Entry>)
    requires Summarizes(out, logs)
    ensures out.totalRequests == |logs|
    ensures out.avgLatencyMs == Quotient(Total(logs, (l: RequestLog) => l.totalTimeMs), |logs|)
    ensures out.errorRate == Quotient(Total(logs, (l: RequestLog) => if l.statusCode >= 400 then 1 else 0), |logs|)
  {
    EveryLog(logs);
    hide Tally, Total, Listed, ListHolds;
  }

  /** Each list has its busiest entries first. */
  lemma ListsAreOrdered(out: Dashboard, logs: seq<Entry>)
    requires Summarizes(out, logs)
    ensures forall i, j :: 0 <= i < j < |out.byModel| ==> out.byModel[i].group.requests >= out.byModel[j].group.requests
    ensures forall i, j :: 0 <= i < j < |out.byProvider| ==>
      out.byProvider[i].group.requests >= out.byProvider[j].group.requests
    ensures forall i, j :: 0 <= i < j < |out.byAPIKey| ==>
      out.byAPIKey[i].group.requests >= out.byAPIKey[j].group.requests
  {
    assert ListHolds(Listed(out, ByModel), logs, ByModel);
    assert ListHolds(Listed(out, ByProvider), logs, ByProvider);
    assert ListHolds(Listed(out, ByAPIKey), logs, ByAPIKey);
  }

  lemma {:induction false} EveryLog(logs: seq<Entry>)
    ensures var t := Tally(logs, Ever, Everyone);
      && t.usage.requests == |logs|
      && t.usage.errors == Total(logs, (l: RequestLog) => if l.statusCode >= 400 then 1 else 0)
      && t.latencyMs == Total(logs, (l: RequestLog) => l.totalTimeMs)
  {
    if logs != [] {
      EveryLog(logs[..|logs| - 1]);
    }
  }
}
