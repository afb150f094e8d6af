/** One request failing over while other requests and the health checker use the same breakers.

    The retry loop of internal/proxy/handler.go, the filters of internal/proxy/router.go and the breakers
    of internal/proxy/circuit.go run as interleaved atomic steps: each call on a breaker is one step, and
    between any two steps of the observed request anybody else may ask or report anything. */
module Interference {
  import opened Prelude
  import opened Models
  import opened Circuit
  import opened Catalog
  import opened Selection
  import opened Router

  /** What is fixed while the request runs: the catalog, the resolved candidates, the path and the number
      of attempts. */
  datatype Setting = Setting(s: Snapshot, cands: seq<Candidate>, path: string, maxAttempts: nat)

  /** Where the request is: about to route, asking the breaker of candidate `i` with `kept` let through
      so far, holding a route, waiting for a backend, or done. */
  datatype Phase =
    | Ready
    | Asking(i: nat, kept: seq<Candidate>)
    | Chosen(c: Candidate)
    | Sent(c: Candidate)
    | Finished

  /** A failure of this request that left the provider's breaker Open: since when, and its cooldown. */
  datatype Trip = Trip(provider: string, since: Time, cooldown: int)

  datatype State = State(bank: Bank, clock: Time, attempt: nat, phase: Phase, sends: nat, trips: set<Trip>)

  datatype Step =
    | OtherAsks(p: Provider)
    | OtherReports(id: string, success: bool)
    | BeginRoute
    | AskNext
    | Choose(c: Candidate)
    | NoRoute
    | CannotBuild
    | Transmit
    | Fail
    | Settle(success: bool)

  /** On to the next attempt, or done if this was the last. */
  function Again(e: Setting, st: State): State {
    if st.attempt < e.maxAttempts then st.(attempt := st.attempt + 1, phase := Ready)
    else st.(phase := Finished)
  }

  /** The trip recorded when the request's own failure leaves the breaker Open. */
  function TripsAfter(e: Setting, bank: Bank, id: string): set<Trip> {
    if BreakerEnabled(e.s, id) && id in bank && bank[id].state.Open?
    then {Trip(id, bank[id].lastChange, bank[id].settings.cooldown)} else {}
  }

  /** The effect of a step at time `at`. A step that is not enabled does nothing. */
  function Act(e: Setting, st: State, step: Step, at: Time): State {
    match step
    case OtherAsks(p) =>
      if ProviderByID(e.s, p.id) == Some(p) then st.(bank := Asked(st.bank, p, at)) else st
    case OtherReports(id, success) => st.(bank := Reported(st.bank, e.s, id, success, at))
    case BeginRoute => if st.phase.Ready? then st.(phase := Asking(0, [])) else st
    case AskNext =>
      if st.phase.Asking? && st.phase.i < |e.cands| then
        var c := e.cands[st.phase.i];
        st.(bank := Asked(st.bank, c.provider, at),
            phase := Asking(st.phase.i + 1,
              if LetsThrough(st.bank, c.provider, at) then st.phase.kept + [c] else st.phase.kept))
      else st
    case Choose(c) =>
      if st.phase.Asking? && st.phase.i == |e.cands| && c in Pool(WithEndpoint(e.s, st.phase.kept, e.path))
      then st.(phase := Chosen(c)) else st
    case NoRoute =>
      if st.phase.Asking? && st.phase.i == |e.cands| && Pool(WithEndpoint(e.s, st.phase.kept, e.path)) == []
      then Again(e, st) else st
    case CannotBuild => if st.phase.Chosen? then Again(e, st) else st
    case Transmit => if st.phase.Chosen? then st.(phase := Sent(st.phase.c), sends := st.sends + 1) else st
    case Fail =>
      if st.phase.Sent? then
        var id := st.phase.c.provider.id;
        var bank := Reported(st.bank, e.s, id, false, at);
        Again(e, st.(bank := bank, trips := st.trips + TripsAfter(e, bank, id)))
      else st
    case Settle(success) =>
      if st.phase.Sent? then
        st.(phase := Finished,
            bank := if success then Reported(st.bank, e.s, st.phase.c.provider.id, true, at) else st.bank)
      else st
  }

  /** Steps carry the clock reading they take; the clock does not go back. */
  function Next(e: Setting, st: State, step: Step, at: Time): State {
    if at < st.clock then st else Act(e, st.(clock := at), step, at)
  }

  function Exec(e: Setting, st: State, run: seq<(Step, Time)>): State
    decreases |run|
  {
    if run == [] then st else Exec(e, Next(e, st, run[0].0, run[0].1), run[1..])
  }

  function Start(bank: Bank, clock: Time): State {
    State(bank, clock, 1, Ready, 0, {})
  }

  // ----- the invariant -----

  /** The cooldown of the trip has passed, or its breaker is still open since then. */
  ghost predicate StillOpenOrCooled(e: Setting, bank: Bank, clock: Time, t: Trip) {
    || clock >= t.since + t.cooldown
    || (&& t.provider in bank
        && bank[t.provider].state.Open?
        && bank[t.provider].lastChange == t.since
        && bank[t.provider].settings.cooldown == t.cooldown
        && CooldownSettled(e, bank, t.provider))
  }

  /** Applying the provider's settings again would not change the cooldown. */
  ghost predicate CooldownSettled(e: Setting, bank: Bank, id: string)
    requires id in bank
  {
    var row := ProviderByID(e.s, id);
    row.Some? ==> Reconfigured(bank[id].settings, SettingsOf(row.value)).cooldown == bank[id].settings.cooldown
  }

  /** No trip of `c`'s provider is still cooling down. */
  ghost predicate Cooled(st: State, c: Candidate) {
    c.provider.breakerEnabled ==>
      forall t :: t in st.trips && t.provider == c.provider.id ==> st.clock >= t.since + t.cooldown
  }

  ghost predicate FromCatalog(e: Setting) {
    forall c :: c in e.cands ==> ProviderByID(e.s, c.provider.id) == Some(c.provider)
  }

  ghost predicate Inv(e: Setting, st: State) {
    && (forall t :: t in st.trips ==> BreakerEnabled(e.s, t.provider) && StillOpenOrCooled(e, st.bank, st.clock, t))
    && (st.phase.Asking? ==> st.phase.i <= |e.cands| && forall c :: c in st.phase.kept ==> c in e.cands && Cooled(st, c))
    && (st.phase.Chosen? ==> st.phase.c in e.cands && Cooled(st, st.phase.c))
    && (st.phase.Sent? ==> st.phase.c in e.cands && Cooled(st, st.phase.c))
    && 1 <= st.attempt
    && (st.phase.Sent? || st.phase.Finished? || st.sends < st.attempt)
    && st.sends <= st.attempt
    && (e.maxAttempts >= 1 ==> st.attempt <= e.maxAttempts)
  }

  lemma AskKeepsTrip(e: Setting, bank: Bank, p: Provider, at: Time, t: Trip)
    requires ProviderByID(e.s, p.id) == Some(p)
    requires StillOpenOrCooled(e, bank, at, t)
    ensures StillOpenOrCooled(e, Asked(bank, p, at), at, t)
  {
  }

  lemma ReportKeepsTrip(e: Setting, bank: Bank, id: string, success: bool, at: Time, t: Trip)
    requires StillOpenOrCooled(e, bank, at, t)
    ensures StillOpenOrCooled(e, Reported(bank, e.s, id, success, at), at, t)
  {
  }

  /** An open breaker that is cooling down lets nothing through. */
  lemma CoolingIsRefused(e: Setting, bank: Bank, p: Provider, at: Time, t: Trip)
    requires ProviderByID(e.s, p.id) == Some(p) && p.breakerEnabled && t.provider == p.id
    requires StillOpenOrCooled(e, bank, at, t) && LetsThrough(bank, p, at)
    ensures at >= t.since + t.cooldown
  {
  }

  lemma TripStartsOpen(e: Setting, bank: Bank, id: string, at: Time, t: Trip)
    requires t in TripsAfter(e, Reported(bank, e.s, id, false, at), id)
    ensures StillOpenOrCooled(e, Reported(bank, e.s, id, false, at), at, t)
  {
  }

  lemma OtherKeepsInv(e: Setting, st: State, step: Step, at: Time)
    requires Inv(e, st) && at >= st.clock && (step.OtherAsks? || step.OtherReports?)
    ensures Inv(e, Next(e, st, step, at))
  {
    forall t | t in st.trips
      ensures StillOpenOrCooled(e, Next(e, st, step, at).bank, at, t)
    {
      match step {
        case OtherAsks(p) =>
          if ProviderByID(e.s, p.id) == Some(p) {
            AskKeepsTrip(e, st.bank, p, at, t);
          }
        case OtherReports(id, success) => ReportKeepsTrip(e, st.bank, id, success, at, t);
      }
    }
  }

  lemma AskNextKeepsInv(e: Setting, st: State, at: Time)
    requires Inv(e, st) && at >= st.clock && FromCatalog(e)
    ensures Inv(e, Next(e, st, AskNext, at))
  {
    if st.phase.Asking? && st.phase.i < |e.cands| {
      var c := e.cands[st.phase.i];
      forall t | t in st.trips
        ensures StillOpenOrCooled(e, Asked(st.bank, c.provider, at), at, t)
        ensures LetsThrough(st.bank, c.provider, at) && c.provider.breakerEnabled && t.provider == c.provider.id ==>
          at >= t.since + t.cooldown
      {
        AskKeepsTrip(e, st.bank, c.provider, at, t);
        if LetsThrough(st.bank, c.provider, at) && c.provider.breakerEnabled && t.provider == c.provider.id {
          CoolingIsRefused(e, st.bank, c.provider, at, t);
        }
      }
    }
  }

  lemma ReportingKeepsInv(e: Setting, st: State, step: Step, at: Time)
    requires Inv(e, st) && at >= st.clock && (step.Fail? || step.Settle?) && st.phase.Sent?
    ensures Inv(e, Next(e, st, step, at))
  {
    var id := st.phase.c.provider.id;
    var next := Next(e, st, step, at);
    forall t | t in next.trips
      ensures BreakerEnabled(e.s, t.provider) && StillOpenOrCooled(e, next.bank, at, t)
    {
      if t in st.trips {
        ReportKeepsTrip(e, st.bank, id, step.Settle?, at, t);
      } else {
        TripStartsOpen(e, st.bank, id, at, t);
      }
    }
  }

  lemma PoolIsKept(e: Setting, kept: seq<Candidate>, c: Candidate)
    requires c in Pool(WithEndpoint(e.s, kept, e.path))
    ensures c in kept
  {
    PoolHolds(WithEndpoint(e.s, kept, e.path), c);
    WithEndpointMeans(e.s, kept, e.path, c);
  }

  lemma StepKeepsInv(e: Setting, st: State, step: Step, at: Time)
    requires Inv(e, st) && FromCatalog(e)
    ensures Inv(e, Next(e, st, step, at))
  {
    if at >= st.clock {
      match step {
        case OtherAsks(_) => OtherKeepsInv(e, st, step, at);
        case OtherReports(_, _) => OtherKeepsInv(e, st, step, at);
        case AskNext => AskNextKeepsInv(e, st, at);
        case Choose(c) =>
          if st.phase.Asking? && c in Pool(WithEndpoint(e.s, st.phase.kept, e.path)) {
            PoolIsKept(e, st.phase.kept, c);
          }
        case Fail =>
          if st.phase.Sent? {
            ReportingKeepsInv(e, st, step, at);
          }
        case Settle(_) =>
          if st.phase.Sent? {
            ReportingKeepsInv(e, st, step, at);
          }
        case _ =>
      }
    }
  }

  lemma {:induction false} RunKeepsInv(e: Setting, st: State, run: seq<(Step, Time)>)
    requires Inv(e, st) && FromCatalog(e)
    ensures Inv(e, Exec(e, st, run))
    decreases |run|
  {
    if run != [] {
      StepKeepsInv(e, st, run[0].0, run[0].1);
      RunKeepsInv(e, Next(e, st, run[0].0, run[0].1), run[1..]);
    }
  }

  /** Whenever the request is sent to an enabled provider, the cooldown of every breaker trip its own
      failures have left there has passed, however other calls interleaved. */
  lemma FailoverRespectsTheBreaker(
    d: RoutingData, s: Snapshot, modelID: string, path: string, maxAttempts: nat,
    bank: Bank, clock: Time, run: seq<(Step, Time)>)
    requires Indexes(s, d) && maxAttempts >= 1
    ensures var st := Exec(Setting(s, Resolve(s, modelID).0, path, maxAttempts), Start(bank, clock), run);
      && (st.phase.Sent? && st.phase.c.provider.breakerEnabled ==>
            forall t :: t in st.trips && t.provider == st.phase.c.provider.id ==> st.clock >= t.since + t.cooldown)
      && st.sends <= maxAttempts
  {
    var e := Setting(s, Resolve(s, modelID).0, path, maxAttempts);
    ResolvedCandidatesAreHealthy(s, d, modelID);
    RunKeepsInv(e, Start(bank, clock), run);
  }

  // ----- the steps, undisturbed -----

  /** The first steps of an attempt with nothing in between: routing begins, and the first `k` candidates are asked
      about, each at its clock reading. */
  function RouteAlone(e: Setting, st: State, clock: seq<Time>, k: nat): State
    requires k <= |clock|
  {
    if k == 0 then Next(e, st, BeginRoute, st.clock) else Next(e, RouteAlone(e, st, clock, k - 1), AskNext, clock[k - 1])
  }

  /** Undisturbed, the steps do what the router does in one call: the same breakers are asked in the same order,
      and the same candidates are kept. */
  lemma {:induction false} AloneItRoutes(e: Setting, st: State, clock: seq<Time>, k: nat)
    requires st.phase.Ready? && k <= |clock| == |e.cands|
    requires forall i, j :: 0 <= i <= j < |clock| ==> st.clock <= clock[i] <= clock[j]
    ensures RouteAlone(e, st, clock, k) == st.(
      bank := AskedUpto(st.bank, e.cands, clock, k),
      clock := if k == 0 then st.clock else clock[k - 1],
      phase := Asking(k, AdmittedUpto(st.bank, e.cands, clock, k)))
  {
    if k > 0 {
      AloneItRoutes(e, st, clock, k - 1);
    }
  }

  lemma ChoosingActs(e: Setting, st: State, kept: seq<Candidate>, c: Candidate, at: Time)
    requires st.phase == Asking(|e.cands|, kept) && st.clock <= at
    ensures var pool := Pool(WithEndpoint(e.s, kept, e.path));
      && (Next(e, st, Choose(c), at).phase == Chosen(c) <==> c in pool)
      && (Next(e, st, NoRoute, at).phase.Asking? <==> pool != [])
  {
    hide Pool, WithEndpoint;
  }

  /** When all have been asked, a candidate is chosen exactly when Route could return it, and there is no route
      exactly when Route finds no provider. */
  lemma AloneItChooses(s: Snapshot, modelID: string, path: string, maxAttempts: nat, st: State, clock: seq<Time>,
      c: Candidate, at: Time)
    requires var e := Setting(s, Resolve(s, modelID).0, path, maxAttempts);
      && st.phase.Ready? && |clock| == |e.cands|
      && (forall i, j :: 0 <= i <= j < |clock| ==> st.clock <= clock[i] <= clock[j] <= at) && st.clock <= at
    ensures var e := Setting(s, Resolve(s, modelID).0, path, maxAttempts);
      var asked := RouteAlone(e, st, clock, |clock|);
      var pool := Pool(Survivors(st.bank, s, modelID, path, clock));
      && (Next(e, asked, Choose(c), at).phase == Chosen(c) <==> c in pool)
      && (Next(e, asked, NoRoute, at).phase.Asking? <==> pool != [])
  {
    var e := Setting(s, Resolve(s, modelID).0, path, maxAttempts);
    AloneItRoutes(e, st, clock, |clock|);
    var kept := AdmittedUpto(st.bank, e.cands, clock, |clock|);
    assert Survivors(st.bank, s, modelID, path, clock) == WithEndpoint(s, kept, path);
    hide Next, RouteAlone, Survivors, WithEndpoint, Pool, Resolve, AdmittedUpto, AskedUpto;
    ChoosingActs(e, RouteAlone(e, st, clock, |clock|), kept, c, at);
  }

  /** What others do reaches the breakers as a call of the router would, whatever the request is about. */
  lemma OthersAct(e: Setting, st: State, p: Provider, id: string, success: bool, at: Time)
    requires at >= st.clock && ProviderByID(e.s, p.id) == Some(p)
    ensures Next(e, st, OtherAsks(p), at) == st.(clock := at, bank := Asked(st.bank, p, at))
    ensures Next(e, st, OtherReports(id, success), at) == st.(clock := at, bank := Reported(st.bank, e.s, id, success, at))
  {
  }

  /** A chosen candidate is sent to once; what comes of it is reported to its own provider's breaker, and a failure
      that leaves the breaker open is a trip. */
  lemma SendingActs(e: Setting, st: State, c: Candidate, at: Time)
    requires at >= st.clock
    ensures st.phase == Chosen(c) ==> Next(e, st, Transmit, at) == st.(clock := at, phase := Sent(c), sends := st.sends + 1)
    ensures st.phase == Sent(c) ==>
      var failed, id := Next(e, st, Fail, at), c.provider.id;
      && failed.bank == Reported(st.bank, e.s, id, false, at)
      && failed.sends == st.sends
      && (if st.attempt < e.maxAttempts then failed.attempt == st.attempt + 1 && failed.phase == Ready
          else failed.phase == Finished)
      && st.trips <= failed.trips
      && (BreakerEnabled(e.s, id) && id in failed.bank && failed.bank[id].state.Open? ==>
            Trip(id, failed.bank[id].lastChange, failed.bank[id].settings.cooldown) in failed.trips)
    ensures st.phase == Sent(c) ==>
      && Next(e, st, Settle(true), at) == st.(clock := at, phase := Finished,
           bank := Reported(st.bank, e.s, c.provider.id, true, at))
      && Next(e, st, Settle(false), at) == st.(clock := at, phase := Finished)
  {
  }
}
