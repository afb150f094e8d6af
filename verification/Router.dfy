/** Routing around unhealthy providers: SmartRouter of internal/proxy/router.go. */
module Router {
  import opened Prelude
  import opened Models
  import opened Circuit
  import opened BreakerBank
  import opened Catalog
  import opened Selection

  /** The value of the router's breakers, by provider. */
  type Bank = map<string, Breaker>

  function SettingsOf(p: Provider): Settings {
    Settings(p.breakerThreshold, p.breakerWindowSeconds * SECOND, p.breakerCooldownSeconds * SECOND)
  }

  function BreakerOf(bank: Bank, id: string, now: Time): Breaker {
    if id in bank then bank[id] else New(now)
  }

  /** The breaker of `id` with the provider's current settings applied, if the provider is known. */
  function Synced(bank: Bank, id: string, p: Option<Provider>, now: Time): Breaker {
    var b := BreakerOf(bank, id, now);
    if p.Some? then Configured(b, SettingsOf(p.value)) else b
  }

  predicate LetsThrough(bank: Bank, p: Provider, now: Time) {
    p.breakerEnabled ==> !Refuses(Synced(bank, p.id, Some(p), now), now)
  }

  /** Asking a breaker may move it from Open to HalfOpen. */
  function Asked(bank: Bank, p: Provider, now: Time): Bank {
    if p.breakerEnabled then bank[p.id := OnAllow(Synced(bank, p.id, Some(p), now), now)] else bank
  }

  /** The bank after the first `k` candidates have been asked about, each at its clock reading. */
  function AskedUpto(bank: Bank, cands: seq<Candidate>, clock: seq<Time>, k: nat): Bank
    requires k <= |cands| && k <= |clock|
  {
    if k == 0 then bank else Asked(AskedUpto(bank, cands, clock, k - 1), cands[k - 1].provider, clock[k - 1])
  }

  /** Those of the first `k` candidates that are let through. */
  function AdmittedUpto(bank: Bank, cands: seq<Candidate>, clock: seq<Time>, k: nat): seq<Candidate>
    requires k <= |cands| && k <= |clock|
  {
    if k == 0 then []
    else
      var rest := AdmittedUpto(bank, cands, clock, k - 1);
      if LetsThrough(AskedUpto(bank, cands, clock, k - 1), cands[k - 1].provider, clock[k - 1])
      then rest + [cands[k - 1]] else rest
  }

  function WithEndpoint(s: Snapshot, cands: seq<Candidate>, path: string): seq<Candidate> {
    if cands == [] then []
    else
      var rest := WithEndpoint(s, cands[..|cands| - 1], path);
      var c := cands[|cands| - 1];
      if HasEnabledEndpoint(s, c.provider.id, path) then rest + [c] else rest
  }

  /** What is left to choose from after both filters. */
  function Survivors(bank: Bank, s: Snapshot, modelID: string, path: string, clock: seq<Time>): seq<Candidate>
    requires |clock| == |Resolve(s, modelID).0|
  {
    WithEndpoint(s, AdmittedUpto(bank, Resolve(s, modelID).0, clock, |clock|), path)
  }

  predicate BreakerEnabled(s: Snapshot, id: string) {
    ProviderByID(s, id).None? || ProviderByID(s, id).value.breakerEnabled
  }

  function Reported(bank: Bank, s: Snapshot, id: string, success: bool, now: Time): Bank {
    if !BreakerEnabled(s, id) then bank
    else
      var b := Synced(bank, id, ProviderByID(s, id), now);
      bank[id := if success then OnSuccess(b, now) else OnFailure(b, now)]
  }

  // ----- the object -----

  datatype Outcome = Routed(target: Candidate, viaAlias: bool) | NoAvailableProvider

  class SmartRouter {
    const breakers: Breakers<string>

    ghost predicate Valid()
      reads breakers, breakers.owned
    {
      breakers.Valid()
    }

    constructor ()
      ensures Valid() && breakers.bank == map[]
      ensures fresh(breakers) && breakers.owned == {}
    {
      breakers := new Breakers();
    }

    /** Finds or creates the breaker and applies the settings of a known provider. */
    method SyncBreakerConfig(id: string, p: Option<Provider>, now: Time)
      requires Valid()
      modifies breakers, breakers.owned
      ensures Valid() && fresh(breakers.owned - old(breakers.owned))
      ensures id in breakers.breakers
      ensures breakers.bank == old(breakers.bank)[id := Synced(old(breakers.bank), id, p, now)]
    {
      hide Synced, BreakerOf, AllStand, AllApart, New, Configured;
      SyncedMeans(breakers.bank, id, p, now);
      var _ := breakers.Get(id, now);
      if p.Some? {
        breakers.Configure(id, SettingsOf(p.value));
      }
    }

    /** `out := candidates[:0]`: the survivors overwrite the front of the same array. */
    method FilterByCircuitBreaker(a: array<Candidate>, n: nat, clock: seq<Time>) returns (kept: nat)
      requires Valid() && a !in breakers.owned
      requires n <= a.Length && |clock| == n
      modifies breakers, breakers.owned, a
      ensures Valid() && fresh(breakers.owned - old(breakers.owned))
      ensures kept <= n
      ensures a[..kept] == AdmittedUpto(old(breakers.bank), old(a[..n]), clock, n)
      ensures breakers.bank == AskedUpto(old(breakers.bank), old(a[..n]), clock, n)
    {
      hide AllStand, AllApart, LetsThrough, Asked;
      ghost var was, bank := a[..n], breakers.bank;
      kept := 0;
      for i := 0 to n
        invariant Valid() && fresh(breakers.owned - old(breakers.owned)) && a !in breakers.owned
        invariant kept <= i
        invariant a[..kept] == AdmittedUpto(bank, was, clock, i)
        invariant forall j :: i <= j < n ==> a[j] == was[j]
        invariant breakers.bank == AskedUpto(bank, was, clock, i)
      {
        var c := a[i];
        var ok := Ask(c.provider, clock[i]);
        if ok {
          a[kept] := c;
          kept := kept + 1;
        }
      }
    }

    /** The loop's question about one candidate. */
    method Ask(p: Provider, now: Time) returns (ok: bool)
      requires Valid()
      modifies breakers, breakers.owned
      ensures Valid() && fresh(breakers.owned - old(breakers.owned))
      ensures ok == LetsThrough(old(breakers.bank), p, now)
      ensures breakers.bank == Asked(old(breakers.bank), p, now)
    {
      hide AllStand, AllApart, Synced, OnAllow, Refuses;
      if !p.breakerEnabled {
        return true;
      }
      SyncBreakerConfig(p.id, Some(p), now);
      ok := breakers.Allow(p.id, now);
    }

    /** The second filter, in place over what the first one left. */
    method FilterByEndpoint(s: Snapshot, a: array<Candidate>, n: nat, path: string) returns (kept: nat)
      requires n <= a.Length
      modifies a
      ensures kept <= n
      ensures a[..kept] == WithEndpoint(s, old(a[..n]), path)
    {
      ghost var was := a[..n];
      kept := 0;
      for i := 0 to n
        invariant kept <= i
        invariant a[..kept] == WithEndpoint(s, was[..i], path)
        invariant forall j :: i <= j < n ==> a[j] == was[j]
      {
        assert was[..i + 1][..i] == was[..i];
        if HasEnabledEndpoint(s, a[i].provider.id, path) {
          a[kept] := a[i];
          kept := kept + 1;
        }
      }
      assert was[..n] == was;
    }

    /** The alias candidates, or else the direct ones, copied out of the snapshot. */
    method ResolveCandidates(shared: SharedSnapshot, modelID: string) returns (a: array<Candidate>, viaAlias: bool)
      requires shared.Valid()
      ensures fresh(a) && (a[..], viaAlias) == Resolve(shared.value, modelID)
    {
      var byAlias := shared.CopyAliasCandidates(modelID);
      if byAlias.Some? {
        return byAlias.value, true;
      }
      a := shared.CopyDirectCandidates(modelID);
      viaAlias := false;
    }

    /** `clock` holds one reading per candidate; `order` is how the sort left the survivors. The filters and the
        sort work on the copy: the snapshot stays what it was. */
    method Route(shared: SharedSnapshot, modelID: string, path: string, clock: seq<Time>)
      returns (outcome: Outcome, pick: int, ghost order: seq<Candidate>)
      requires Valid() && shared.Valid() && shared.Lists() !! breakers.owned + {breakers}
      requires |clock| == |Resolve(shared.value, modelID).0|
      modifies breakers, breakers.owned
      ensures Valid() && fresh(breakers.owned - old(breakers.owned))
      ensures shared.Valid()
      ensures breakers.bank == AskedUpto(old(breakers.bank), Resolve(shared.value, modelID).0, clock, |clock|)
      ensures multiset(order) == multiset(Survivors(old(breakers.bank), shared.value, modelID, path, clock))
      ensures outcome.NoAvailableProvider? <==> Pool(order) == []
      ensures outcome.Routed? ==>
        && outcome.viaAlias == Resolve(shared.value, modelID).1
        && 0 <= pick < Total(Pool(order))
        && outcome.target == Pool(order)[PickIndex(Pool(order), pick)]
    {
      hide AllStand, AllApart, AskedUpto, Survivors, Pool, Total, PickIndex, Hold, Resolve;
      var a, viaAlias := ResolveCandidates(shared, modelID);
      var selected;
      selected, pick, order := Choose(shared.value, modelID, a, path, clock);
      outcome := if selected.None? then NoAvailableProvider else Routed(selected.value, viaAlias);
    }

    /** Both filters and the selection, on the router's own copy of the candidates. */
    method Choose(s: Snapshot, ghost modelID: string, a: array<Candidate>, path: string, clock: seq<Time>)
      returns (selected: Option<Candidate>, pick: int, ghost order: seq<Candidate>)
      requires Valid() && a !in breakers.owned && |clock| == a.Length && a[..] == Resolve(s, modelID).0
      modifies breakers, breakers.owned, a
      ensures Valid() && fresh(breakers.owned - old(breakers.owned))
      ensures breakers.bank == AskedUpto(old(breakers.bank), Resolve(s, modelID).0, clock, |clock|)
      ensures multiset(order) == multiset(Survivors(old(breakers.bank), s, modelID, path, clock))
      ensures selected.None? <==> Pool(order) == []
      ensures selected.Some? ==>
        0 <= pick < Total(Pool(order)) && selected.value == Pool(order)[PickIndex(Pool(order), pick)]
    {
      hide AllStand, AllApart, AdmittedUpto, AskedUpto, WithEndpoint, Total, PickIndex, Resolve;
      assert a[..a.Length] == a[..];
      var n := FilterByCircuitBreaker(a, a.Length, clock);
      n := FilterByEndpoint(s, a, n, path);
      if n == 0 {
        return None, 0, [];
      }
      selected, pick, order := SelectWeightedPriority(a, n);
    }

    method ReportSuccess(s: Snapshot, id: string, now: Time)
      requires Valid()
      modifies breakers, breakers.owned
      ensures Valid() && fresh(breakers.owned - old(breakers.owned))
      ensures breakers.bank == Reported(old(breakers.bank), s, id, true, now)
    {
      hide AllStand, AllApart, Synced, OnSuccess, OnFailure, ProviderByID, BreakerEnabled;
      if BreakerEnabled(s, id) {
        SyncBreakerConfig(id, ProviderByID(s, id), now);
        breakers.RecordSuccess(id, now);
      }
    }

    method ReportFailure(s: Snapshot, id: string, now: Time)
      requires Valid()
      modifies breakers, breakers.owned
      ensures Valid() && fresh(breakers.owned - old(breakers.owned))
      ensures breakers.bank == Reported(old(breakers.bank), s, id, false, now)
    {
      hide AllStand, AllApart, Synced, OnSuccess, OnFailure, ProviderByID, BreakerEnabled;
      if BreakerEnabled(s, id) {
        SyncBreakerConfig(id, ProviderByID(s, id), now);
        breakers.RecordFailure(id, now);
      }
    }
  }

  lemma SyncedMeans(bank: Bank, id: string, p: Option<Provider>, now: Time)
    ensures BreakerOf(bank, id, now) == if id in bank then bank[id] else New(now)
    ensures Synced(bank, id, p, now)
      == if p.Some? then Configured(BreakerOf(bank, id, now), SettingsOf(p.value)) else BreakerOf(bank, id, now)
  {
  }

  // ----- what routing promises -----

  lemma {:induction false} AdmittedMeans(bank: Bank, cands: seq<Candidate>, clock: seq<Time>, k: nat, c: Candidate)
    requires k <= |cands| && k <= |clock|
    ensures c in AdmittedUpto(bank, cands, clock, k) <==>
      exists i :: 0 <= i < k && cands[i] == c && LetsThrough(AskedUpto(bank, cands, clock, i), c.provider, clock[i])
  {
    if k > 0 {
      AdmittedMeans(bank, cands, clock, k - 1, c);
    }
  }

  lemma {:induction false} WithEndpointMeans(s: Snapshot, cands: seq<Candidate>, path: string, c: Candidate)
    ensures c in WithEndpoint(s, cands, path) <==> c in cands && HasEnabledEndpoint(s, c.provider.id, path)
  {
    if cands != [] {
      var init := cands[..|cands| - 1];
      WithEndpointMeans(s, init, path, c);
      assert cands == init + [cands[|cands| - 1]];
    }
  }

  // ----- who is let through, by the state of the breakers before the call -----

  /** The provider's breaker is open and the cooldown has not passed: the provider's own if it has one, or else the
      breaker's. A provider without a breaker yet is not cooling. */
  predicate Cooling(bank: Bank, p: Provider, now: Time) {
    p.id in bank && bank[p.id].state == Open &&
    now - bank[p.id].lastChange <
      if p.breakerCooldownSeconds > 0 then p.breakerCooldownSeconds * 1_000_000_000 else bank[p.id].settings.cooldown
  }

  /** A provider is let through unless its breaker is enabled and cooling down. */
  lemma LetsThroughMeans(bank: Bank, p: Provider, now: Time)
    ensures LetsThrough(bank, p, now) <==> !p.breakerEnabled || !Cooling(bank, p, now)
  {
  }

  /** Candidate `i` gets past the breakers when its breaker is disabled, or when by then some candidate of the same
      provider was asked about while the breaker, as it was before the call, was not cooling. */
  ghost predicate GetsPast(bank: Bank, cands: seq<Candidate>, clock: seq<Time>, i: nat)
    requires i < |cands| == |clock|
  {
    !cands[i].provider.breakerEnabled || WarmBefore(bank, cands, clock, i + 1, cands[i].provider)
  }

  ghost predicate WarmBefore(bank: Bank, cands: seq<Candidate>, clock: seq<Time>, k: nat, p: Provider)
    requires k <= |cands| == |clock|
  {
    exists j :: 0 <= j < k && cands[j].provider == p && !Cooling(bank, p, clock[j])
  }

  /** Candidates of one provider carry the same row. */
  predicate OneRowEach(cands: seq<Candidate>) {
    forall i, j :: 0 <= i < |cands| && 0 <= j < |cands| && cands[i].provider.id == cands[j].provider.id ==>
      cands[i].provider == cands[j].provider
  }

  lemma AskingTwice(bank: Bank, p: Provider, q: Provider, now: Time, t: Time)
    requires p.breakerEnabled && (p.id == q.id ==> p == q)
    ensures var after := Asked(bank, q, now);
      && (p != q || Cooling(bank, p, now) ==> (Cooling(after, p, t) <==> Cooling(bank, p, t)))
      && (p == q && !Cooling(bank, p, now) ==> p.id in after && after[p.id].state != Open)
      && (p.id in bank && bank[p.id].state != Open ==> p.id in after && after[p.id].state != Open)
  {
    LetsThroughMeans(bank, p, now);
  }

  lemma {:induction false} AskedBefore(bank: Bank, cands: seq<Candidate>, clock: seq<Time>, k: nat, p: Provider, t: Time)
    requires k <= |cands| == |clock| && OneRowEach(cands) && p.breakerEnabled
    requires exists i :: 0 <= i < |cands| && cands[i].provider == p
    ensures var b := AskedUpto(bank, cands, clock, k);
      && (WarmBefore(bank, cands, clock, k, p) ==> p.id in b && b[p.id].state != Open)
      && (!WarmBefore(bank, cands, clock, k, p) ==> (Cooling(b, p, t) <==> Cooling(bank, p, t)))
  {
    if k > 0 {
      var b, q, now := AskedUpto(bank, cands, clock, k - 1), cands[k - 1].provider, clock[k - 1];
      AskedBefore(bank, cands, clock, k - 1, p, t);
      AskedBefore(bank, cands, clock, k - 1, p, now);
      WarmGrows(bank, cands, clock, k - 1, p);
      AskingTwice(b, p, q, now, t);
    }
  }

  lemma WarmGrows(bank: Bank, cands: seq<Candidate>, clock: seq<Time>, k: nat, p: Provider)
    requires k < |cands| == |clock|
    ensures WarmBefore(bank, cands, clock, k + 1, p) <==>
      WarmBefore(bank, cands, clock, k, p) || (cands[k].provider == p && !Cooling(bank, p, clock[k]))
  {
    if WarmBefore(bank, cands, clock, k + 1, p) {
      var j :| 0 <= j < k + 1 && cands[j].provider == p && !Cooling(bank, p, clock[j]);
      assert j < k || j == k;
    }
  }

  lemma GetsPastMeans(bank: Bank, cands: seq<Candidate>, clock: seq<Time>, i: nat)
    requires i < |cands| == |clock| && OneRowEach(cands)
    ensures LetsThrough(AskedUpto(bank, cands, clock, i), cands[i].provider, clock[i]) <==> GetsPast(bank, cands, clock, i)
  {
    var p := cands[i].provider;
    LetsThroughMeans(AskedUpto(bank, cands, clock, i), p, clock[i]);
    if p.breakerEnabled {
      AskedBefore(bank, cands, clock, i, p, clock[i]);
      WarmGrows(bank, cands, clock, i, p);
    }
  }

  /** A router that has not routed yet lets everyone through. */
  lemma FreshBreakersLetThrough(cands: seq<Candidate>, clock: seq<Time>, i: nat)
    requires i < |cands| == |clock|
    ensures GetsPast(map[], cands, clock, i)
  {
    assert !Cooling(map[], cands[i].provider, clock[i]);
  }

  lemma ResolvedRows(s: Snapshot, d: RoutingData, modelID: string)
    requires Indexes(s, d)
    ensures OneRowEach(Resolve(s, modelID).0)
  {
    ResolvedCandidatesAreHealthy(s, d, modelID);
    var cands := Resolve(s, modelID).0;
    forall i | 0 <= i < |cands| ensures Some(cands[i].provider) == ProviderByID(s, cands[i].provider.id) {
      assert cands[i] in cands;
    }
  }

  /** The candidate survives both filters: its endpoint is enabled and it gets past the breakers. */
  ghost predicate Survives(bank: Bank, s: Snapshot, modelID: string, path: string, clock: seq<Time>, c: Candidate)
    requires |clock| == |Resolve(s, modelID).0|
  {
    var cands := Resolve(s, modelID).0;
    && HasEnabledEndpoint(s, c.provider.id, path)
    && exists i :: 0 <= i < |cands| && cands[i] == c && GetsPast(bank, cands, clock, i)
  }

  /** Routing is sound: a target it can return, whatever the sort and the pick, survives both filters,
      is healthy, has positive weight, and no survivor has a higher priority. It is complete: it fails
      exactly when nothing survives, or no survivor of the highest priority has positive weight. */
  lemma RouteIsSoundAndComplete(
    bank: Bank, s: Snapshot, d: RoutingData, modelID: string, path: string, clock: seq<Time>, order: seq<Candidate>)
    requires Indexes(s, d) && |clock| == |Resolve(s, modelID).0|
    requires multiset(order) == multiset(Survivors(bank, s, modelID, path, clock))
    ensures forall c :: c in Pool(order) <==>
      && Survives(bank, s, modelID, path, clock, c)
      && c.weight > 0
      && forall x :: Survives(bank, s, modelID, path, clock, x) ==> x.priority <= c.priority
    ensures forall c :: c in Pool(order) ==> c.provider.isHealthy && HealthyProvider(d.providers, c.provider.id)
    ensures Pool(order) == [] <==>
      forall c :: Survives(bank, s, modelID, path, clock, c)
        && (forall x :: Survives(bank, s, modelID, path, clock, x) ==> x.priority <= c.priority)
        ==> c.weight <= 0
  {
    hide Pool, Survivors, Indexes, Resolve, HealthyProvider;
    forall c
      ensures c in Pool(order) <==>
        && Survives(bank, s, modelID, path, clock, c)
        && c.weight > 0
        && forall x :: Survives(bank, s, modelID, path, clock, x) ==> x.priority <= c.priority
    {
      PoolMeans(bank, s, d, modelID, path, clock, order, c);
    }
    forall c | c in Pool(order)
      ensures c.provider.isHealthy && HealthyProvider(d.providers, c.provider.id)
    {
      assert Survives(bank, s, modelID, path, clock, c);
      CandidateIsHealthy(s, d, modelID, c);
    }
    assert Pool(order) != [] ==> Pool(order)[0] in Pool(order);
  }

  lemma PoolMeans(bank: Bank, s: Snapshot, d: RoutingData, modelID: string, path: string, clock: seq<Time>,
      order: seq<Candidate>, c: Candidate)
    requires Indexes(s, d) && |clock| == |Resolve(s, modelID).0|
    requires multiset(order) == multiset(Survivors(bank, s, modelID, path, clock))
    ensures c in Pool(order) <==>
      && Survives(bank, s, modelID, path, clock, c)
      && c.weight > 0
      && forall x :: Survives(bank, s, modelID, path, clock, x) ==> x.priority <= c.priority
  {
    hide Pool, Survivors, Resolve, Survives, Indexes;
    SurvivorsMeans(bank, s, d, modelID, path, clock, order);
    PoolHolds(order, c);
  }

  lemma CandidateIsHealthy(s: Snapshot, d: RoutingData, modelID: string, c: Candidate)
    requires Indexes(s, d) && c in Resolve(s, modelID).0
    ensures c.provider.isHealthy && HealthyProvider(d.providers, c.provider.id)
  {
    ResolvedCandidatesAreHealthy(s, d, modelID);
    assert Find(s.providers, c.provider.id) == ProviderRow(d.providers, c.provider.id);
  }

  lemma SurvivorsMeans(
    bank: Bank, s: Snapshot, d: RoutingData, modelID: string, path: string, clock: seq<Time>, order: seq<Candidate>)
    requires Indexes(s, d) && |clock| == |Resolve(s, modelID).0|
    requires multiset(order) == multiset(Survivors(bank, s, modelID, path, clock))
    ensures forall c :: c in order <==> Survives(bank, s, modelID, path, clock, c)
  {
    hide AdmittedUpto, AskedUpto, WithEndpoint, LetsThrough, GetsPast, OneRowEach, Indexes;
    var cands := Resolve(s, modelID).0;
    var admitted := AdmittedUpto(bank, cands, clock, |clock|);
    ResolvedRows(s, d, modelID);
    forall i | 0 <= i < |cands|
      ensures LetsThrough(AskedUpto(bank, cands, clock, i), cands[i].provider, clock[i])
        <==> GetsPast(bank, cands, clock, i)
    {
      GetsPastMeans(bank, cands, clock, i);
    }
    forall c
      ensures c in order <==> Survives(bank, s, modelID, path, clock, c)
    {
      assert c in order <==> c in multiset(order);
      assert c in WithEndpoint(s, admitted, path) <==> c in multiset(WithEndpoint(s, admitted, path));
      WithEndpointMeans(s, admitted, path, c);
      AdmittedMeans(bank, cands, clock, |clock|, c);
    }
  }

  // ----- what a report does -----

  /** A provider's breaker runs with the provider's own settings, seconds being seconds. */
  lemma SettingsAreTheProviders(bank: Bank, id: string, p: Provider, now: Time)
    requires 0.0 < p.breakerThreshold <= 1.0 && p.breakerWindowSeconds > 0 && p.breakerCooldownSeconds > 0
    ensures var set_ := Synced(bank, id, Some(p), now).settings;
      && set_.threshold == p.breakerThreshold
      && set_.window == p.breakerWindowSeconds * 1_000_000_000
      && set_.cooldown == p.breakerCooldownSeconds * 1_000_000_000
  {
  }

  /** A report reaches one breaker, that of its provider, unless the catalog knows the provider and its breaker is
      disabled. A success is the latest success there, a failure the latest failure, and nothing else is added. */
  lemma ReportMeans(bank: Bank, s: Snapshot, id: string, success: bool, now: Time)
    ensures var after := Reported(bank, s, id, success, now);
      if id in s.providers && !s.providers[id].breakerEnabled then after == bank
      else
        && after.Keys == bank.Keys + {id}
        && (forall other :: other in bank && other != id ==> after[other] == bank[other])
        && var was, b := if id in bank then bank[id] else New(now), after[id];
           var cutoff := now - b.settings.window;
           && b.successes == After(was.successes, cutoff) + (if success then [now] else [])
           && b.failures == (if success && was.state == HalfOpen then []
                             else After(was.failures, cutoff) + (if success then [] else [now]))
  {
  }
}
