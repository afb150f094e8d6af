/** The in-memory routing index of internal/proxy/catalog.go, checked against plain scans of the
    tables it is built from. No uniqueness of rows is assumed: where the tables repeat a key, the
    later row wins, as it does in the code. */
module Catalog {
  import opened Prelude
  import opened Models
  import opened Strings

  datatype Candidate = Candidate(provider: Provider, modelID: string, weight: int, priority: int)

  datatype Snapshot = Snapshot(
    aliases: map<string, seq<Candidate>>,
    directModels: map<string, seq<Candidate>>,
    endpoints: map<string, set<string>>,
    publicModelIDs: seq<string>,
    providerModels: map<string, map<string, ProviderModel>>,
    providers: map<string, Provider>)

  // ----- lookups -----

  function NormalizeEndpointPath(path: string): string {
    if path == "" || path[0] == '/' then path else "/" + path
  }

  function Find<V>(m: map<string, V>, k: string): Option<V> {
    if k in m then Some(m[k]) else None
  }

  function FindList<V>(m: map<string, seq<V>>, k: string): seq<V> {
    if k in m then m[k] else []
  }

  function AliasCandidates(s: Snapshot, alias: string): Option<seq<Candidate>> {
    if alias !in s.aliases || |s.aliases[alias]| == 0 then None else Some(s.aliases[alias])
  }

  function DirectCandidates(s: Snapshot, modelID: string): seq<Candidate> {
    FindList(s.directModels, modelID)
  }

  predicate HasEnabledEndpoint(s: Snapshot, providerID: string, path: string) {
    providerID in s.endpoints && NormalizeEndpointPath(path) in s.endpoints[providerID]
  }

  function ProviderModelOf(s: Snapshot, providerID: string, modelID: string): Option<ProviderModel> {
    if providerID in s.providerModels then Find(s.providerModels[providerID], modelID) else None
  }

  function ProviderByID(s: Snapshot, providerID: string): Option<Provider> {
    Find(s.providers, providerID)
  }

  /** Direct models come first here, unlike in `Resolve`. */
  function ProviderModelForModelID(s: Snapshot, modelID: string): Option<ProviderModel> {
    var direct := FindList(s.directModels, modelID);
    var cands := if |direct| == 0 then FindList(s.aliases, modelID) else direct;
    if |cands| == 0 then None else ProviderModelOf(s, cands[0].provider.id, cands[0].modelID)
  }

  /** The router's candidate list, and whether it came from an alias. */
  function Resolve(s: Snapshot, modelID: string): (seq<Candidate>, bool) {
    match AliasCandidates(s, modelID)
    case Some(cands) => (cands, true)
    case None => (DirectCandidates(s, modelID), false)
  }

  // ----- the plain scans -----

  function ProviderRow(ps: seq<Provider>, id: string): Option<Provider> {
    if ps == [] then None
    else if ps[|ps| - 1].id == id then Some(ps[|ps| - 1])
    else ProviderRow(ps[..|ps| - 1], id)
  }

  function ModelRow(ms: seq<ProviderModel>, providerID: string, modelID: string): Option<ProviderModel> {
    if ms == [] then None
    else
      var m := ms[|ms| - 1];
      if m.providerID == providerID && m.modelID == modelID then Some(m)
      else ModelRow(ms[..|ms| - 1], providerID, modelID)
  }

  predicate HealthyProvider(ps: seq<Provider>, id: string) {
    ProviderRow(ps, id).Some? && ProviderRow(ps, id).value.isHealthy
  }

  predicate DirectlyRoutable(ps: seq<Provider>, m: ProviderModel) {
    m.isAvailable && HealthyProvider(ps, m.providerID)
  }

  /** The rows for `id` that are available at a healthy provider, in table order. */
  function DirectScan(ps: seq<Provider>, ms: seq<ProviderModel>, id: string): seq<Candidate> {
    if ms == [] then []
    else
      var rest := DirectScan(ps, ms[..|ms| - 1], id);
      var m := ms[|ms| - 1];
      if m.modelID == id && DirectlyRoutable(ps, m)
      then rest + [Candidate(ProviderRow(ps, m.providerID).value, m.modelID, 1, 0)]
      else rest
  }

  predicate MarkedUnavailable(ms: seq<ProviderModel>, providerID: string, modelID: string) {
    var row := ModelRow(ms, providerID, modelID);
    row.Some? && !row.value.isAvailable
  }

  predicate AliasRoutable(d: RoutingData, a: ModelAlias) {
    a.isEnabled && HealthyProvider(d.providers, a.providerID) && !MarkedUnavailable(d.models, a.providerID, a.modelID)
  }

  /** The alias rows for `name` that are enabled, at a healthy provider, for a model not marked
      unavailable, in table order. */
  function AliasScan(d: RoutingData, rows: seq<ModelAlias>, name: string): seq<Candidate> {
    if rows == [] then []
    else
      var rest := AliasScan(d, rows[..|rows| - 1], name);
      var a := rows[|rows| - 1];
      if a.alias == name && AliasRoutable(d, a)
      then rest + [Candidate(ProviderRow(d.providers, a.providerID).value, a.modelID, a.weight, a.priority)]
      else rest
  }

  predicate EndpointListed(eps: seq<ProviderEndpoint>, providerID: string, path: string) {
    exists i :: 0 <= i < |eps| && eps[i].isSupported && eps[i].isEnabled
      && eps[i].providerID == providerID && eps[i].path == path
  }

  predicate ModelListed(ms: seq<ProviderModel>, id: string) {
    exists i :: 0 <= i < |ms| && ms[i].isAvailable && ms[i].modelID == id
  }

  predicate Public(d: RoutingData, id: string) {
    ModelListed(d.models, id) || AliasScan(d, d.aliases, id) != []
  }

  /** The snapshot answers every lookup as a scan of the tables would. */
  ghost predicate Indexes(s: Snapshot, d: RoutingData) {
    && (forall id :: Find(s.providers, id) == ProviderRow(d.providers, id))
    && (forall p, path :: Listed(s.endpoints, p, path) <==> EndpointListed(d.endpoints, p, path))
    && (forall p, m :: FindModel(s.providerModels, p, m) == ModelRow(d.models, p, m))
    && (forall id :: FindList(s.directModels, id) == DirectScan(d.providers, d.models, id))
    && (forall id :: FindList(s.aliases, id) == AliasScan(d, d.aliases, id))
    && StrictlySorted(s.publicModelIDs)
    && (forall id :: id in s.publicModelIDs <==> Public(d, id))
  }

  predicate Listed(m: map<string, set<string>>, p: string, path: string) {
    p in m && path in m[p]
  }

  function FindModel(m: map<string, map<string, ProviderModel>>, p: string, id: string): Option<ProviderModel> {
    if p in m then Find(m[p], id) else None
  }

  // ----- building the index -----

  method IndexProviders(ps: seq<Provider>) returns (providers: map<string, Provider>)
    ensures forall id :: Find(providers, id) == ProviderRow(ps, id)
  {
    providers := map[];
    for i := 0 to |ps|
      invariant forall id :: Find(providers, id) == ProviderRow(ps[..i], id)
    {
      assert ps[..i + 1][..i] == ps[..i];
      providers := providers[ps[i].id := ps[i]];
    }
    assert ps[..|ps|] == ps;
  }

  method IndexEndpoints(eps: seq<ProviderEndpoint>) returns (endpoints: map<string, set<string>>)
    ensures forall p, path :: Listed(endpoints, p, path) <==> EndpointListed(eps, p, path)
  {
    endpoints := map[];
    for i := 0 to |eps|
      invariant forall p, path :: Listed(endpoints, p, path) <==> EndpointListed(eps[..i], p, path)
    {
      var ep := eps[i];
      ghost var before := endpoints;
      if ep.isSupported && ep.isEnabled {
        if ep.providerID !in endpoints {
          endpoints := endpoints[ep.providerID := {}];
        }
        endpoints := endpoints[ep.providerID := endpoints[ep.providerID] + {ep.path}];
      }
      forall p, path
        ensures Listed(endpoints, p, path) <==> EndpointListed(eps[..i + 1], p, path)
      {
        EndpointListedSnoc(eps, i, p, path);
        assert Listed(before, p, path) <==> EndpointListed(eps[..i], p, path);
      }
    }
    assert eps[..|eps|] == eps;
  }

  lemma EndpointListedSnoc(eps: seq<ProviderEndpoint>, i: nat, p: string, path: string)
    requires i < |eps|
    ensures EndpointListed(eps[..i + 1], p, path) <==>
      EndpointListed(eps[..i], p, path)
      || (eps[i].isSupported && eps[i].isEnabled && eps[i].providerID == p && eps[i].path == path)
  {
    if EndpointListed(eps[..i], p, path) {
      var k :| 0 <= k < i && eps[..i][k].isSupported && eps[..i][k].isEnabled
        && eps[..i][k].providerID == p && eps[..i][k].path == path;
      assert eps[..i + 1][k] == eps[..i][k];
    }
    if eps[i].isSupported && eps[i].isEnabled && eps[i].providerID == p && eps[i].path == path {
      assert eps[..i + 1][i] == eps[i];
    }
    if EndpointListed(eps[..i + 1], p, path) {
      var k :| 0 <= k < i + 1 && eps[..i + 1][k].isSupported && eps[..i + 1][k].isEnabled
        && eps[..i + 1][k].providerID == p && eps[..i + 1][k].path == path;
      if k < i {
        assert eps[..i][k] == eps[..i + 1][k];
      }
    }
  }

  lemma ModelListedSnoc(ms: seq<ProviderModel>, i: nat, id: string)
    requires i < |ms|
    ensures ModelListed(ms[..i + 1], id) <==> ModelListed(ms[..i], id) || (ms[i].isAvailable && ms[i].modelID == id)
  {
    if ModelListed(ms[..i], id) {
      var k :| 0 <= k < i && ms[..i][k].isAvailable && ms[..i][k].modelID == id;
      assert ms[..i + 1][k] == ms[..i][k];
    }
    if ms[i].isAvailable && ms[i].modelID == id {
      assert ms[..i + 1][i] == ms[i];
    }
    if ModelListed(ms[..i + 1], id) {
      var k :| 0 <= k < i + 1 && ms[..i + 1][k].isAvailable && ms[..i + 1][k].modelID == id;
      if k < i {
        assert ms[..i][k] == ms[..i + 1][k];
      }
    }
  }

  method IndexModels(ms: seq<ProviderModel>, providers: map<string, Provider>, ghost ps: seq<Provider>)
    returns (providerModels: map<string, map<string, ProviderModel>>, directModels: map<string, seq<Candidate>>, seen: set<string>)
    requires forall id :: Find(providers, id) == ProviderRow(ps, id)
    ensures forall p, m :: FindModel(providerModels, p, m) == ModelRow(ms, p, m)
    ensures forall id :: FindList(directModels, id) == DirectScan(ps, ms, id)
    ensures forall id :: id in seen <==> ModelListed(ms, id)
  {
    providerModels, directModels, seen := map[], map[], {};
    for i := 0 to |ms|
      invariant forall p, m :: FindModel(providerModels, p, m) == ModelRow(ms[..i], p, m)
      invariant forall id :: FindList(directModels, id) == DirectScan(ps, ms[..i], id)
      invariant forall id :: id in seen <==> ModelListed(ms[..i], id)
    {
      var m := ms[i];
      assert ms[..i + 1][..i] == ms[..i];
      forall id
        ensures ModelListed(ms[..i + 1], id) <==> ModelListed(ms[..i], id) || (m.isAvailable && m.modelID == id)
      {
        ModelListedSnoc(ms, i, id);
      }
      if m.providerID !in providerModels {
        providerModels := providerModels[m.providerID := map[]];
      }
      providerModels := providerModels[m.providerID := providerModels[m.providerID][m.modelID := m]];
      if !m.isAvailable {
        continue;
      }
      seen := seen + {m.modelID};
      assert Find(providers, m.providerID) == ProviderRow(ps, m.providerID);
      if m.providerID !in providers || !providers[m.providerID].isHealthy {
        continue;
      }
      var old_ := FindList(directModels, m.modelID);
      directModels := directModels[m.modelID := old_ + [Candidate(providers[m.providerID], m.modelID, 1, 0)]];
    }
    assert ms[..|ms|] == ms;
  }

  lemma AliasRowSkipped(d: RoutingData, rows: seq<ModelAlias>, i: nat)
    requires i < |rows| && !AliasRoutable(d, rows[i])
    ensures forall id :: AliasScan(d, rows[..i + 1], id) == AliasScan(d, rows[..i], id)
  {
    assert rows[..i + 1][..i] == rows[..i];
  }

  lemma AliasRowTaken(d: RoutingData, rows: seq<ModelAlias>, i: nat, c: Candidate)
    requires i < |rows| && AliasRoutable(d, rows[i])
    requires c == Candidate(ProviderRow(d.providers, rows[i].providerID).value, rows[i].modelID, rows[i].weight, rows[i].priority)
    ensures forall id :: AliasScan(d, rows[..i + 1], id) == AliasScan(d, rows[..i], id) + if id == rows[i].alias then [c] else []
  {
    assert rows[..i + 1][..i] == rows[..i];
  }

  lemma ListExtends(m: map<string, seq<Candidate>>, key: string, c: Candidate, id: string)
    ensures FindList(m[key := FindList(m, key) + [c]], id) == FindList(m, id) + if id == key then [c] else []
  {
  }

  method IndexAliases(d: RoutingData, providers: map<string, Provider>, providerModels: map<string, map<string, ProviderModel>>)
    returns (aliases: map<string, seq<Candidate>>, seen: set<string>)
    requires forall id :: Find(providers, id) == ProviderRow(d.providers, id)
    requires forall p, m :: FindModel(providerModels, p, m) == ModelRow(d.models, p, m)
    ensures forall id :: FindList(aliases, id) == AliasScan(d, d.aliases, id)
    ensures forall id :: id in seen <==> AliasScan(d, d.aliases, id) != []
  {
    aliases, seen := map[], {};
    var rows := d.aliases;
    for i := 0 to |rows|
      invariant forall id :: FindList(aliases, id) == AliasScan(d, rows[..i], id)
      invariant forall id :: id in seen <==> AliasScan(d, rows[..i], id) != []
    {
      hide AliasScan, ProviderRow, ModelRow, FindList;
      var a := rows[i];
      if !a.isEnabled {
        AliasRowSkipped(d, rows, i);
        continue;
      }
      assert Find(providers, a.providerID) == ProviderRow(d.providers, a.providerID);
      if a.providerID !in providers || !providers[a.providerID].isHealthy {
        AliasRowSkipped(d, rows, i);
        continue;
      }
      assert FindModel(providerModels, a.providerID, a.modelID) == ModelRow(d.models, a.providerID, a.modelID);
      if a.providerID in providerModels {
        var byModel := providerModels[a.providerID];
        if a.modelID in byModel && !byModel[a.modelID].isAvailable {
          AliasRowSkipped(d, rows, i);
          continue;
        }
      }
      var old_ := FindList(aliases, a.alias);
      var c := Candidate(providers[a.providerID], a.modelID, a.weight, a.priority);
      AliasRowTaken(d, rows, i, c);
      ghost var before := aliases;
      aliases := aliases[a.alias := old_ + [c]];
      forall id ensures FindList(aliases, id) == AliasScan(d, rows[..i + 1], id) {
        assert FindList(before, id) == AliasScan(d, rows[..i], id);
        ListExtends(before, a.alias, c, id);
      }
      seen := seen + {a.alias};
    }
    assert rows[..|rows|] == rows;
  }

  /** Ranging over a Go map yields its keys in any order; sorting afterwards hides which. */
  method SortedIDs(seen: set<string>) returns (ids: seq<string>)
    ensures StrictlySorted(ids) && forall id :: id in ids <==> id in seen
  {
    ids := [];
    var rest := seen;
    while rest != {}
      invariant rest <= seen
      invariant StrictlySorted(ids) && forall id :: id in ids <==> id in seen && id !in rest
      decreases rest
    {
      var id :| id in rest;
      rest := rest - {id};
      ids := Insert(ids, id);
    }
  }

  method BuildRoutingSnapshot(d: RoutingData) returns (s: Snapshot)
    ensures Indexes(s, d)
  {
    var providers := IndexProviders(d.providers);
    var endpoints := IndexEndpoints(d.endpoints);
    var providerModels, directModels, seenModels := IndexModels(d.models, providers, d.providers);
    var aliases, seenAliases := IndexAliases(d, providers, providerModels);
    var ids := SortedIDs(seenModels + seenAliases);
    s := Snapshot(aliases, directModels, endpoints, ids, providerModels, providers);
  }

  // ----- what the index means to its readers -----

  predicate LastWithID(ps: seq<Provider>, i: int, id: string, p: Provider) {
    0 <= i < |ps| && ps[i] == p && p.id == id && forall j :: i < j < |ps| ==> ps[j].id != id
  }

  /** The scans by what they find: the last row with the id, ... */
  lemma {:induction false} ProviderRowMeans(ps: seq<Provider>, id: string, p: Provider)
    ensures ProviderRow(ps, id) == Some(p) <==> exists i :: LastWithID(ps, i, id, p)
  {
    if ps != [] {
      var n := |ps| - 1;
      ProviderRowMeans(ps[..n], id, p);
      if ps[n].id == id && ps[n] == p {
        assert LastWithID(ps, n, id, p);
      }
      if i :| LastWithID(ps[..n], i, id, p) && ps[n].id != id {
        assert LastWithID(ps, i, id, p);
      }
      if i :| LastWithID(ps, i, id, p) && i < n {
        assert LastWithID(ps[..n], i, id, p);
      }
    }
  }

  predicate LastForModel(ms: seq<ProviderModel>, i: int, p: string, id: string, m: ProviderModel) {
    0 <= i < |ms| && ms[i] == m && m.providerID == p && m.modelID == id
    && forall j :: i < j < |ms| ==> ms[j].providerID != p || ms[j].modelID != id
  }

  /** ... the last row for the provider and the model, ... */
  lemma {:induction false} ModelRowMeans(ms: seq<ProviderModel>, p: string, id: string, m: ProviderModel)
    ensures ModelRow(ms, p, id) == Some(m) <==> exists i :: LastForModel(ms, i, p, id, m)
  {
    if ms != [] {
      var n := |ms| - 1;
      ModelRowMeans(ms[..n], p, id, m);
      if ms[n].providerID == p && ms[n].modelID == id && ms[n] == m {
        assert LastForModel(ms, n, p, id, m);
      }
      if i :| LastForModel(ms[..n], i, p, id, m) && !(ms[n].providerID == p && ms[n].modelID == id) {
        assert LastForModel(ms, i, p, id, m);
      }
      if i :| LastForModel(ms, i, p, id, m) && i < n {
        assert LastForModel(ms[..n], i, p, id, m);
      }
    }
  }

  predicate OfModel(ps: seq<Provider>, m: ProviderModel, id: string, c: Candidate) {
    && m.modelID == id && m.isAvailable && c.provider.isHealthy && ProviderRow(ps, m.providerID) == Some(c.provider)
    && c.modelID == id && c.weight == 1 && c.priority == 0
  }

  /** ... a candidate of weight 1 and priority 0 for each available row of the name at a healthy provider, ... */
  lemma {:induction false} DirectScanMeans(ps: seq<Provider>, ms: seq<ProviderModel>, id: string, c: Candidate)
    ensures c in DirectScan(ps, ms, id) <==> exists i :: 0 <= i < |ms| && OfModel(ps, ms[i], id, c)
  {
    if ms != [] {
      var n := |ms| - 1;
      DirectScanMeans(ps, ms[..n], id, c);
      if i :| 0 <= i < n && OfModel(ps, ms[..n][i], id, c) {
        assert ms[i] == ms[..n][i];
      }
      if i :| 0 <= i < n && OfModel(ps, ms[i], id, c) {
        assert ms[..n][i] == ms[i];
      }
    }
  }

  predicate OfAlias(d: RoutingData, a: ModelAlias, name: string, c: Candidate) {
    && a.alias == name && a.isEnabled && c.provider.isHealthy
    && ProviderRow(d.providers, a.providerID) == Some(c.provider)
    && (ModelRow(d.models, a.providerID, a.modelID).Some? ==> ModelRow(d.models, a.providerID, a.modelID).value.isAvailable)
    && c.modelID == a.modelID && c.weight == a.weight && c.priority == a.priority
  }

  /** ... and a candidate with the row's own weight and priority for each enabled row of the alias at a healthy
      provider whose model is not marked unavailable. */
  lemma {:induction false} AliasScanMeans(d: RoutingData, rows: seq<ModelAlias>, name: string, c: Candidate)
    ensures c in AliasScan(d, rows, name) <==> exists i :: 0 <= i < |rows| && OfAlias(d, rows[i], name, c)
  {
    if rows != [] {
      var n := |rows| - 1;
      AliasScanMeans(d, rows[..n], name, c);
      if i :| 0 <= i < n && OfAlias(d, rows[..n][i], name, c) {
        assert rows[i] == rows[..n][i];
      }
      if i :| 0 <= i < n && OfAlias(d, rows[i], name, c) {
        assert rows[..n][i] == rows[i];
      }
    }
  }

  /** Later rows only add at the end, one candidate at most for each. */
  lemma ScansGrowAtTheEnd(d: RoutingData, ms: seq<ProviderModel>, m: ProviderModel, rows: seq<ModelAlias>, a: ModelAlias,
      name: string)
    ensures DirectScan(d.providers, ms, name) <= DirectScan(d.providers, ms + [m], name)
    ensures AliasScan(d, rows, name) <= AliasScan(d, rows + [a], name)
    ensures |DirectScan(d.providers, ms + [m], name)| == |DirectScan(d.providers, ms, name)|
      + if m.modelID == name && m.isAvailable && HealthyProvider(d.providers, m.providerID) then 1 else 0
    ensures |AliasScan(d, rows + [a], name)| == |AliasScan(d, rows, name)|
      + if a.alias == name && AliasRoutable(d, a) then 1 else 0
  {
    assert (ms + [m])[..|ms|] == ms && (rows + [a])[..|rows|] == rows;
  }

  predicate Usable(d: RoutingData, a: ModelAlias, name: string) {
    && a.alias == name && a.isEnabled
    && ProviderRow(d.providers, a.providerID).Some? && ProviderRow(d.providers, a.providerID).value.isHealthy
    && (ModelRow(d.models, a.providerID, a.modelID).Some? ==> ModelRow(d.models, a.providerID, a.modelID).value.isAvailable)
  }

  lemma {:induction false} AliasScanFinds(d: RoutingData, rows: seq<ModelAlias>, name: string)
    ensures AliasScan(d, rows, name) != [] <==> exists i :: 0 <= i < |rows| && Usable(d, rows[i], name)
  {
    if rows != [] {
      var n := |rows| - 1;
      AliasScanFinds(d, rows[..n], name);
      if i :| 0 <= i < n && Usable(d, rows[..n][i], name) {
        assert rows[i] == rows[..n][i];
      }
      if i :| 0 <= i < n && Usable(d, rows[i], name) {
        assert rows[..n][i] == rows[i];
      }
    }
  }

  /** The public list names the models some row has as available, at whatever provider, and the usable aliases; each
      once, in ascending order. */
  lemma PublicListMeans(s: Snapshot, d: RoutingData, id: string)
    requires Indexes(s, d)
    ensures id in s.publicModelIDs <==>
      || (exists i :: 0 <= i < |d.models| && d.models[i].isAvailable && d.models[i].modelID == id)
      || (exists i :: 0 <= i < |d.aliases| && Usable(d, d.aliases[i], id))
    ensures forall i, j :: 0 <= i < j < |s.publicModelIDs| ==> Below(s.publicModelIDs[i], s.publicModelIDs[j])
  {
    AliasScanFinds(d, d.aliases, id);
    assert id in s.publicModelIDs <==> Public(d, id);
  }

  /** Any two builds from the same tables publish the same list, whatever order the map was ranged in. */
  lemma PublicListIsDetermined(s: Snapshot, t: Snapshot, d: RoutingData)
    requires Indexes(s, d) && Indexes(t, d)
    ensures s.publicModelIDs == t.publicModelIDs
  {
    SortedListIsUnique(s.publicModelIDs, t.publicModelIDs);
  }

  lemma {:induction false} DirectScanFinds(ps: seq<Provider>, ms: seq<ProviderModel>, id: string)
    ensures DirectScan(ps, ms, id) != [] <==>
      exists i :: 0 <= i < |ms| && ms[i].modelID == id && DirectlyRoutable(ps, ms[i])
  {
    if ms != [] {
      var init := ms[..|ms| - 1];
      DirectScanFinds(ps, init, id);
      if i :| 0 <= i < |init| && init[i].modelID == id && DirectlyRoutable(ps, init[i]) {
        assert ms[i] == init[i];
      }
      if i :| 0 <= i < |ms| && ms[i].modelID == id && DirectlyRoutable(ps, ms[i]) && i < |init| {
        assert init[i] == ms[i];
      }
    }
  }

  /** A name the router can resolve is listed publicly. The converse fails in exactly one way: the name
      is no usable alias, and every available row for it sits at a missing or unhealthy provider. */
  lemma RoutableVersusPublic(s: Snapshot, d: RoutingData, id: string)
    requires Indexes(s, d)
    ensures Resolve(s, id).0 != [] ==> id in s.publicModelIDs
    ensures id in s.publicModelIDs && Resolve(s, id).0 == [] <==>
      && AliasScan(d, d.aliases, id) == []
      && ModelListed(d.models, id)
      && forall i :: 0 <= i < |d.models| && d.models[i].isAvailable && d.models[i].modelID == id ==>
           !HealthyProvider(d.providers, d.models[i].providerID)
  {
    DirectScanFinds(d.providers, d.models, id);
    assert FindList(s.aliases, id) == AliasScan(d, d.aliases, id);
    assert FindList(s.directModels, id) == DirectScan(d.providers, d.models, id);
    assert id in s.publicModelIDs <==> Public(d, id);
    if DirectScan(d.providers, d.models, id) != [] {
      var i :| 0 <= i < |d.models| && d.models[i].modelID == id && DirectlyRoutable(d.providers, d.models[i]);
      assert d.models[i].isAvailable;
    }
  }

  /** An endpoint is found exactly when the table has a supported and enabled row for the provider whose path is the
      one asked for, or that with a leading slash in front when it has none. */
  lemma EndpointLookupMatchesTable(s: Snapshot, d: RoutingData, providerID: string, path: string)
    requires Indexes(s, d)
    ensures HasEnabledEndpoint(s, providerID, path) <==>
      exists i :: 0 <= i < |d.endpoints| && d.endpoints[i].isSupported && d.endpoints[i].isEnabled
        && d.endpoints[i].providerID == providerID
        && d.endpoints[i].path == (if path != "" && path[0] != '/' then ['/'] + path else path)
  {
    var p := NormalizeEndpointPath(path);
    assert Listed(s.endpoints, providerID, p) <==> EndpointListed(d.endpoints, providerID, p);
  }

  /** The row of the router's first candidate for a name, or None when there is no candidate or no row. */
  function RoutedRow(s: Snapshot, id: string): Option<ProviderModel> {
    var cands := Resolve(s, id).0;
    if cands == [] then None else ProviderModelOf(s, cands[0].provider.id, cands[0].modelID)
  }

  function FirstRow(d: RoutingData, cands: seq<Candidate>): Option<ProviderModel> {
    if cands == [] then None else ModelRow(d.models, cands[0].provider.id, cands[0].modelID)
  }

  /** The two lookups in terms of the tables: the router prefers an alias, the model description a direct row. */
  lemma AliasShadowsDirectOnlyInRouting(s: Snapshot, d: RoutingData, id: string)
    requires Indexes(s, d)
    ensures var viaAlias, direct := AliasScan(d, d.aliases, id), DirectScan(d.providers, d.models, id);
      && Resolve(s, id) == (if viaAlias != [] then (viaAlias, true) else (direct, false))
      && RoutedRow(s, id) == FirstRow(d, if viaAlias != [] then viaAlias else direct)
      && ProviderModelForModelID(s, id) == FirstRow(d, if direct != [] then direct else viaAlias)
  {
    assert FindList(s.aliases, id) == AliasScan(d, d.aliases, id);
    assert FindList(s.directModels, id) == DirectScan(d.providers, d.models, id);
    var viaAlias, direct := FindList(s.aliases, id), FindList(s.directModels, id);
    if direct != [] {
      assert FindModel(s.providerModels, direct[0].provider.id, direct[0].modelID) == FirstRow(d, direct);
    }
    if viaAlias != [] {
      assert FindModel(s.providerModels, viaAlias[0].provider.id, viaAlias[0].modelID) == FirstRow(d, viaAlias);
    }
  }

  /** A later row for the same provider and model takes an earlier one's place, but a row there is. */
  lemma RowStays(ms: seq<ProviderModel>, m: ProviderModel, p: string, id: string)
    requires ModelRow(ms, p, id).Some?
    ensures ModelRow(ms + [m], p, id).Some?
  {
    assert (ms + [m])[..|ms|] == ms;
  }

  lemma {:induction false} DirectCandidatesHaveRows(ps: seq<Provider>, ms: seq<ProviderModel>, id: string)
    ensures forall c :: c in DirectScan(ps, ms, id) ==> ModelRow(ms, c.provider.id, c.modelID).Some?
  {
    if ms != [] {
      var init, m := ms[..|ms| - 1], ms[|ms| - 1];
      assert ms == init + [m];
      DirectCandidatesHaveRows(ps, init, id);
      forall c | c in DirectScan(ps, ms, id)
        ensures ModelRow(ms, c.provider.id, c.modelID).Some?
      {
        if c in DirectScan(ps, init, id) {
          RowStays(init, m, c.provider.id, c.modelID);
        } else {
          ProviderRowHasID(ps, m.providerID);
        }
      }
    }
  }

  /** A name has no description exactly when it is no direct model and is no usable alias, or is one whose first
      candidate has no model row. */
  lemma DescriptionMissingExactly(s: Snapshot, d: RoutingData, id: string)
    requires Indexes(s, d)
    ensures var viaAlias, direct := AliasScan(d, d.aliases, id), DirectScan(d.providers, d.models, id);
      && (ProviderModelForModelID(s, id).None? <==> direct == [] && FirstRow(d, viaAlias).None?)
      && (Resolve(s, id).0 != [] && ProviderModelForModelID(s, id).None? <==>
            direct == [] && viaAlias != [] && FirstRow(d, viaAlias).None?)
  {
    AliasShadowsDirectOnlyInRouting(s, d, id);
    DirectCandidatesHaveRows(d.providers, d.models, id);
    var direct := DirectScan(d.providers, d.models, id);
    assert direct != [] ==> direct[0] in direct;
  }

  /** The row described is not that of the router's first candidate exactly when the name is both an alias and a
      direct model and their first rows differ. */
  lemma DescribedDiffersExactly(s: Snapshot, d: RoutingData, id: string)
    requires Indexes(s, d)
    ensures var viaAlias, direct := AliasScan(d, d.aliases, id), DirectScan(d.providers, d.models, id);
      ProviderModelForModelID(s, id) != RoutedRow(s, id) <==>
        viaAlias != [] && direct != [] && FirstRow(d, viaAlias) != FirstRow(d, direct)
  {
    AliasShadowsDirectOnlyInRouting(s, d, id);
  }

  function HealthyNode(id: string): Provider {
    Provider(id, true, true, 0.5, 60, 30)
  }

  /** One provider, no model rows, one alias. */
  function RowlessAlias(): RoutingData {
    RoutingData([HealthyNode("p")], [], [ModelAlias("m", "p", "x", 1, 0, true)], [])
  }

  /** A routable name without a description: an alias may name a model that no row lists. */
  lemma RoutableWithoutDescription(s: Snapshot)
    requires Indexes(s, RowlessAlias())
    ensures Resolve(s, "m").0 != [] && ProviderModelForModelID(s, "m").None?
  {
    var d := RowlessAlias();
    assert d.aliases[..0] == [] && d.providers[..0] == [];
    assert AliasScan(d, [], "m") == [];
    assert ProviderRow(d.providers, "p") == Some(HealthyNode("p"));
    assert ModelRow(d.models, "p", "x") == None;
    assert AliasScan(d, d.aliases, "m") == [Candidate(HealthyNode("p"), "x", 1, 0)];
    DescriptionMissingExactly(s, d, "m");
  }

  /** One provider with the models m and x, and x also served under the alias m. */
  function ShadowedModel(): RoutingData {
    RoutingData([HealthyNode("p")],
      [ProviderModel("p", "m", true, Some(1.0), None, None), ProviderModel("p", "x", true, Some(2.0), None, None)],
      [ModelAlias("m", "p", "x", 1, 0, true)], [])
  }

  /** Requests for m go to x, while m's own row is described. */
  lemma AliasIsDescribedByAnotherRow(s: Snapshot)
    requires Indexes(s, ShadowedModel())
    ensures var d := ShadowedModel();
      ProviderModelForModelID(s, "m") == Some(d.models[0]) && RoutedRow(s, "m") == Some(d.models[1])
  {
    var d := ShadowedModel();
    var p, ms := HealthyNode("p"), d.models;
    assert d.aliases[..0] == [] && d.providers[..0] == [] && ms[..1] == [ms[0]] && ms[..1][..0] == [];
    assert AliasScan(d, [], "m") == [] && DirectScan(d.providers, [], "m") == [];
    assert ProviderRow(d.providers, "p") == Some(p);
    assert ModelRow(ms, "p", "x") == Some(ms[1]);
    assert ModelRow(ms[..1], "p", "m") == Some(ms[0]);
    assert ModelRow(ms, "p", "m") == Some(ms[0]);
    assert AliasScan(d, d.aliases, "m") == [Candidate(p, "x", 1, 0)];
    assert DirectScan(d.providers, ms[..1], "m") == [Candidate(p, "m", 1, 0)];
    assert DirectScan(d.providers, ms, "m") == [Candidate(p, "m", 1, 0)];
    AliasShadowsDirectOnlyInRouting(s, d, "m");
  }

  /** Every candidate the router gets is at the provider row its id names, and that provider is healthy. */
  lemma ResolvedCandidatesAreHealthy(s: Snapshot, d: RoutingData, id: string)
    requires Indexes(s, d)
    ensures forall c :: c in Resolve(s, id).0 ==>
      c.provider.isHealthy && Some(c.provider) == ProviderByID(s, c.provider.id)
  {
    assert FindList(s.aliases, id) == AliasScan(d, d.aliases, id);
    assert FindList(s.directModels, id) == DirectScan(d.providers, d.models, id);
    AliasScanIsHealthy(d, d.aliases, id);
    DirectScanIsHealthy(d.providers, d.models, id);
    forall c | c in Resolve(s, id).0
      ensures c.provider.isHealthy && Some(c.provider) == ProviderByID(s, c.provider.id)
    {
      assert Find(s.providers, c.provider.id) == ProviderRow(d.providers, c.provider.id);
    }
  }

  lemma {:induction false} ProviderRowHasID(ps: seq<Provider>, id: string)
    requires ProviderRow(ps, id).Some?
    ensures ProviderRow(ps, id).value.id == id
  {
    if ps[|ps| - 1].id != id {
      ProviderRowHasID(ps[..|ps| - 1], id);
    }
  }

  predicate AtHealthyRow(ps: seq<Provider>, c: Candidate) {
    c.provider.isHealthy && ProviderRow(ps, c.provider.id) == Some(c.provider)
  }

  lemma {:induction false} AliasScanIsHealthy(d: RoutingData, rows: seq<ModelAlias>, id: string)
    ensures forall c :: c in AliasScan(d, rows, id) ==> AtHealthyRow(d.providers, c)
  {
    if rows != [] {
      AliasScanIsHealthy(d, rows[..|rows| - 1], id);
      var a := rows[|rows| - 1];
      if AliasRoutable(d, a) {
        ProviderRowHasID(d.providers, a.providerID);
      }
    }
  }

  lemma {:induction false} DirectScanIsHealthy(ps: seq<Provider>, ms: seq<ProviderModel>, id: string)
    ensures forall c :: c in DirectScan(ps, ms, id) ==> AtHealthyRow(ps, c)
  {
    if ms != [] {
      DirectScanIsHealthy(ps, ms[..|ms| - 1], id);
      var m := ms[|ms| - 1];
      if DirectlyRoutable(ps, m) {
        ProviderRowHasID(ps, m.providerID);
      }
    }
  }

  // ----- the lists the snapshot shares -----

  /** An array for each list of candidates, with its elements. */
  ghost predicate Hold(lists: map<string, array<Candidate>>, values: map<string, seq<Candidate>>)
    reads lists.Values
  {
    lists.Keys == values.Keys && forall id | id in lists :: lists[id][..] == values[id]
  }

  method Slices(values: map<string, seq<Candidate>>) returns (lists: map<string, array<Candidate>>)
    ensures Hold(lists, values) && fresh(lists.Values)
  {
    lists := map[];
    var todo := values.Keys;
    while todo != {}
      invariant todo <= values.Keys && lists.Keys == values.Keys - todo
      invariant forall id | id in lists :: fresh(lists[id]) && lists[id][..] == values[id]
      decreases todo
    {
      var id :| id in todo;
      todo := todo - {id};
      var cands := values[id];
      var a := new Candidate[|cands|](i requires 0 <= i < |cands| => cands[i]);
      assert a[..] == cands;
      lists := lists[id := a];
    }
  }

  /** A published snapshot: its candidate lists are slices that all readers share, so they are only handed out
      as copies. Everything else is read as the value it is. */
  class SharedSnapshot {
    const value: Snapshot
    const aliases: map<string, array<Candidate>>
    const directModels: map<string, array<Candidate>>

    ghost predicate Valid()
      reads Lists()
    {
      Hold(aliases, value.aliases) && Hold(directModels, value.directModels)
    }

    ghost function Lists(): set<object> {
      aliases.Values + directModels.Values
    }

    constructor (s: Snapshot)
      ensures Valid() && value == s && fresh(Lists())
    {
      var byAlias := Slices(s.aliases);
      var direct := Slices(s.directModels);
      value, aliases, directModels := s, byAlias, direct;
    }

    method CopyAliasCandidates(alias: string) returns (copied: Option<array<Candidate>>)
      requires Valid()
      ensures copied.None? <==> AliasCandidates(value, alias).None?
      ensures copied.Some? ==> fresh(copied.value) && Some(copied.value[..]) == AliasCandidates(value, alias)
    {
      if alias !in aliases || aliases[alias].Length == 0 {
        return None;
      }
      var a := Copy(aliases[alias]);
      copied := Some(a);
    }

    method CopyDirectCandidates(modelID: string) returns (copied: array<Candidate>)
      requires Valid()
      ensures fresh(copied) && copied[..] == DirectCandidates(value, modelID)
    {
      if modelID !in directModels {
        copied := new Candidate[0];
      } else {
        copied := Copy(directModels[modelID]);
      }
    }
  }

  method Copy(a: array<Candidate>) returns (b: array<Candidate>)
    ensures fresh(b) && b[..] == a[..]
  {
    b := new Candidate[a.Length](i requires 0 <= i < a.Length reads a => a[i]);
    assert b[..] == a[..];
  }
}
