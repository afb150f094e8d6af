/** What a circuit breaker guarantees over whole runs, for every interleaving of calls.

    The breaker keeps two lists it prunes as it goes. The reference here is the unpruned history:
    every failure since the last HalfOpen-to-Closed reset and every success ever recorded. */
module CircuitRuns {
  import opened Circuit
  import opened Prelude

  /** One mutex-protected call, with the clock reading it took. */
  datatype Event =
    | AllowCall(at: Time)
    | Success(at: Time)
    | Failure(at: Time)
    | Reconfigure(at: Time, next: Settings)

  function Step(b: Breaker, e: Event): Breaker {
    match e
    case AllowCall(t) => OnAllow(b, t)
    case Success(t) => OnSuccess(b, t)
    case Failure(t) => OnFailure(b, t)
    case Reconfigure(_, s) => Configured(b, s)
  }

  function Run(b: Breaker, es: seq<Event>): Breaker {
    if es == [] then b else Step(Run(b, es[..|es| - 1]), es[|es| - 1])
  }

  /** The clock never goes back, and starts at `from`. */
  predicate Clocked(from: Time, es: seq<Event>) {
    && (forall i :: 0 <= i < |es| ==> from <= es[i].at)
    && (forall i, j :: 0 <= i <= j < |es| ==> es[i].at <= es[j].at)
  }

  predicate Records(e: Event) {
    e.Success? || e.Failure?
  }

  // ----- the unpruned history -----

  function SuccessLog(es: seq<Event>): seq<Time> {
    if es == [] then []
    else
      var rest := SuccessLog(es[..|es| - 1]);
      var e := es[|es| - 1];
      if e.Success? then rest + [e.at] else rest
  }

  /** Every failure since the last time a success closed the breaker. */
  function FailureLog(t0: Time, es: seq<Event>): seq<Time> {
    if es == [] then []
    else
      var before := es[..|es| - 1];
      var e := es[|es| - 1];
      if e.Failure? then FailureLog(t0, before) + [e.at]
      else if e.Success? && Run(New(t0), before).state.HalfOpen? then []
      else FailureLog(t0, before)
  }

  /** The latest cutoff any record call has pruned to. */
  function HighWater(t0: Time, es: seq<Event>): Time {
    if es == [] then t0 - DEFAULTS.window
    else
      var before := es[..|es| - 1];
      var e := es[|es| - 1];
      if Records(e) then Max(HighWater(t0, before), e.at - Run(New(t0), before).settings.window)
      else HighWater(t0, before)
  }

  // ----- pruning -----

  lemma {:induction false} AfterTwice(ts: seq<Time>, c: Time, d: Time)
    ensures After(After(ts, c), d) == After(ts, Max(c, d))
  {
    if ts != [] {
      var init := ts[..|ts| - 1];
      AfterTwice(init, c, d);
      if ts[|ts| - 1] > c {
        var kept := After(ts, c);
        assert kept[..|kept| - 1] == After(init, c);
      }
    }
  }

  lemma AfterSnoc(ts: seq<Time>, t: Time, c: Time)
    ensures After(ts + [t], c) == if t > c then After(ts, c) + [t] else After(ts, c)
  {
    assert (ts + [t])[..|ts|] == ts;
  }

  lemma {:induction false} SettingsStayLegal(t0: Time, es: seq<Event>)
    ensures Run(New(t0), es).settings.window > 0
    ensures Run(New(t0), es).settings.cooldown > 0
  {
    if es != [] {
      SettingsStayLegal(t0, es[..|es| - 1]);
    }
  }

  lemma {:induction false} HighWaterIsPast(t0: Time, es: seq<Event>, now: Time)
    requires Clocked(t0, es) && t0 <= now && (es != [] ==> es[|es| - 1].at <= now)
    ensures HighWater(t0, es) < now
  {
    if es != [] {
      var before := es[..|es| - 1];
      SettingsStayLegal(t0, before);
      HighWaterIsPast(t0, before, now);
    }
  }

  lemma PruneCutsFurther(b: Breaker, f: seq<Time>, s: seq<Time>, high: Time, now: Time)
    requires b.failures == After(f, high) && b.successes == After(s, high)
    ensures var c := Max(high, now - b.settings.window);
      Prune(b, now).failures == After(f, c) && Prune(b, now).successes == After(s, c)
  {
    hide After;
    AfterTwice(f, high, now - b.settings.window);
    AfterTwice(s, high, now - b.settings.window);
  }

  lemma RecordedLists(b: Breaker, now: Time)
    ensures var p := Prune(b, now);
      && OnFailure(b, now).failures == p.failures + [now]
      && OnFailure(b, now).successes == p.successes
      && OnSuccess(b, now).failures == (if b.state.HalfOpen? then [] else p.failures)
      && OnSuccess(b, now).successes == p.successes + [now]
  {
  }

  /** One record call on lists that hold the histories `f` and `s` cut at `high`. */
  lemma RecordCutsFurther(b: Breaker, f: seq<Time>, s: seq<Time>, high: Time, now: Time)
    requires b.failures == After(f, high) && b.successes == After(s, high)
    requires b.settings.window > 0 && high < now
    ensures var c := Max(high, now - b.settings.window);
      && OnFailure(b, now).failures == After(f + [now], c)
      && OnFailure(b, now).successes == After(s, c)
      && OnSuccess(b, now).failures == (if b.state.HalfOpen? then [] else After(f, c))
      && OnSuccess(b, now).successes == After(s + [now], c)
  {
    var c := Max(high, now - b.settings.window);
    PruneCutsFurther(b, f, s, high, now);
    RecordedLists(b, now);
    AfterSnoc(f, now, c);
    AfterSnoc(s, now, c);
  }

  lemma RunSnoc(b: Breaker, es: seq<Event>, e: Event)
    ensures Run(b, es + [e]) == Step(Run(b, es), e)
  {
    assert (es + [e])[..|es|] == es;
  }

  lemma LogsSnoc(t0: Time, es: seq<Event>, e: Event)
    ensures SuccessLog(es + [e]) == if e.Success? then SuccessLog(es) + [e.at] else SuccessLog(es)
    ensures FailureLog(t0, es + [e]) ==
      if e.Failure? then FailureLog(t0, es) + [e.at]
      else if e.Success? && Run(New(t0), es).state.HalfOpen? then []
      else FailureLog(t0, es)
    ensures HighWater(t0, es + [e]) ==
      if Records(e) then Max(HighWater(t0, es), e.at - Run(New(t0), es).settings.window) else HighWater(t0, es)
  {
    assert (es + [e])[..|es|] == es;
  }

  /** For every run, with settings changed at will: each pruned list is the unpruned history cut at
      the latest cutoff any record call has reached. Nothing else is lost, duplicated or reordered. */
  lemma {:induction false} PrunedListsRefineHistory(t0: Time, es: seq<Event>)
    requires Clocked(t0, es)
    ensures Run(New(t0), es).failures == After(FailureLog(t0, es), HighWater(t0, es))
    ensures Run(New(t0), es).successes == After(SuccessLog(es), HighWater(t0, es))
  {
    if es != [] {
      var before, e := es[..|es| - 1], es[|es| - 1];
      assert es == before + [e];
      PrunedListsRefineHistory(t0, before);
      RunSnoc(New(t0), before, e);
      LogsSnoc(t0, before, e);
      if Records(e) {
        SettingsStayLegal(t0, before);
        HighWaterIsPast(t0, before, e.at);
        RecordCutsFurther(Run(New(t0), before), FailureLog(t0, before), SuccessLog(before),
          HighWater(t0, before), e.at);
      }
    }
  }

  // ----- when the lists are exactly the history inside the window -----

  predicate NoneBetween(ts: seq<Time>, c: Time, d: Time) {
    forall i :: 0 <= i < |ts| ==> !(c < ts[i] <= d)
  }

  lemma {:induction false} AfterLaterCutoff(ts: seq<Time>, c: Time, d: Time)
    requires c <= d
    ensures |After(ts, d)| <= |After(ts, c)|
    ensures After(ts, d) == After(ts, c) <==> NoneBetween(ts, c, d)
  {
    if ts != [] {
      var init, last := ts[..|ts| - 1], ts[|ts| - 1];
      assert ts == init + [last];
      assert forall i :: 0 <= i < |init| ==> ts[i] == init[i];
      assert NoneBetween(ts, c, d) <==> NoneBetween(init, c, d) && !(c < last <= d);
      AfterLaterCutoff(init, c, d);
      AfterSnoc(init, last, c);
      AfterSnoc(init, last, d);
      SameWithoutLast(After(init, c), After(init, d), last);
    }
  }

  lemma SameWithoutLast(a: seq<Time>, b: seq<Time>, t: Time)
    ensures a + [t] == b + [t] <==> a == b
  {
    assert (a + [t])[..|a|] == a && (b + [t])[..|b|] == b;
  }

  lemma CutoffBelowHighWater(t0: Time, es: seq<Event>)
    requires es != [] && Records(es[|es| - 1])
    ensures es[|es| - 1].at - Run(New(t0), es).settings.window <= HighWater(t0, es)
  {
  }

  /** With the window changed at will, the lists are the history inside the current window exactly when
      no entry inside it had already been pruned at a later cutoff, under an earlier and shorter window. */
  lemma WindowIsExactExactlyWhen(t0: Time, es: seq<Event>)
    requires es != [] && Records(es[|es| - 1]) && Clocked(t0, es)
    ensures var b := Run(New(t0), es);
      var cutoff, high := es[|es| - 1].at - b.settings.window, HighWater(t0, es);
      && (b.failures == After(FailureLog(t0, es), cutoff) <==> NoneBetween(FailureLog(t0, es), cutoff, high))
      && (b.successes == After(SuccessLog(es), cutoff) <==> NoneBetween(SuccessLog(es), cutoff, high))
  {
    hide Run, FailureLog, SuccessLog, HighWater, After, NoneBetween;
    var cutoff, high := es[|es| - 1].at - Run(New(t0), es).settings.window, HighWater(t0, es);
    CutoffBelowHighWater(t0, es);
    PrunedListsRefineHistory(t0, es);
    AfterLaterCutoff(FailureLog(t0, es), cutoff, high);
    AfterLaterCutoff(SuccessLog(es), cutoff, high);
  }

  predicate AnyRecord(es: seq<Event>) {
    es != [] && (AnyRecord(es[..|es| - 1]) || Records(es[|es| - 1]))
  }

  /** Once something has been recorded, no reconfiguration makes the window longer. Before that, the
      window of a new breaker may be set to anything. */
  predicate WindowKept(b: Breaker, es: seq<Event>) {
    es != [] ==>
      var before := es[..|es| - 1];
      && WindowKept(b, before)
      && (AnyRecord(before) ==> Run(b, es).settings.window <= Run(b, before).settings.window)
  }

  /** No entry inside the window that a record call at `now` looks at has been pruned before. */
  predicate Intact(t0: Time, es: seq<Event>, now: Time) {
    var cutoff, high := now - Run(New(t0), es).settings.window, HighWater(t0, es);
    NoneBetween(FailureLog(t0, es), cutoff, high) && NoneBetween(SuccessLog(es), cutoff, high)
  }

  lemma {:induction false} HighWaterOfKeptWindow(t0: Time, es: seq<Event>, now: Time)
    requires Clocked(t0, es) && t0 <= now && (es != [] ==> es[|es| - 1].at <= now)
    requires WindowKept(New(t0), es)
    ensures !AnyRecord(es) ==> HighWater(t0, es) == t0 - DEFAULTS.window
    ensures HighWater(t0, es) <= Max(t0 - DEFAULTS.window, now - Run(New(t0), es).settings.window)
  {
    if es != [] {
      HighWaterOfKeptWindow(t0, es[..|es| - 1], now);
    }
  }

  predicate AllFrom(ts: seq<Time>, from: Time) {
    forall i :: 0 <= i < |ts| ==> from <= ts[i]
  }

  lemma {:induction false} LogsBeginAtStart(t0: Time, es: seq<Event>)
    requires Clocked(t0, es)
    ensures AllFrom(FailureLog(t0, es), t0) && AllFrom(SuccessLog(es), t0)
  {
    if es != [] {
      LogsBeginAtStart(t0, es[..|es| - 1]);
    }
  }

  lemma KeptWindowIsIntact(t0: Time, es: seq<Event>, now: Time)
    requires Clocked(t0, es) && t0 <= now && (es != [] ==> es[|es| - 1].at <= now)
    requires WindowKept(New(t0), es)
    ensures Intact(t0, es, now)
  {
    hide Run, FailureLog, SuccessLog, HighWater;
    HighWaterOfKeptWindow(t0, es, now);
    LogsBeginAtStart(t0, es);
  }

  /** Right after a record call the lists hold exactly the history inside the current window, provided
      no reconfiguration since the first record call lengthened the window. */
  lemma RecordSeesExactWindow(t0: Time, es: seq<Event>)
    requires es != [] && Records(es[|es| - 1]) && Clocked(t0, es) && WindowKept(New(t0), es)
    ensures var b := Run(New(t0), es);
      var cutoff := es[|es| - 1].at - b.settings.window;
      b.failures == After(FailureLog(t0, es), cutoff) && b.successes == After(SuccessLog(es), cutoff)
  {
    KeptWindowIsIntact(t0, es, es[|es| - 1].at);
    WindowIsExactExactlyWhen(t0, es);
  }

  /** The failures exceed the threshold share of all calls. */
  predicate Outvoted(failures: nat, successes: nat, threshold: real) {
    failures as real > threshold * (failures + successes) as real
  }

  lemma OverThresholdMeans(f: nat, s: nat, threshold: real)
    requires threshold > 0.0
    ensures OverThreshold(f, s, threshold) <==> Outvoted(f, s, threshold)
  {
    if f + s > 0 {
      var n := (f + s) as real;
      var rate := f as real / n;
      assert rate * n == f as real;
      if rate > threshold {
        assert (rate - threshold) * n > 0.0;
      } else {
        assert (threshold - rate) * n >= 0.0;
      }
    } else {
      assert threshold * 0.0 == 0.0;
    }
  }

  lemma {:induction false} ThresholdStaysPositive(t0: Time, es: seq<Event>)
    ensures Run(New(t0), es).settings.threshold > 0.0
  {
    if es != [] {
      ThresholdStaysPositive(t0, es[..|es| - 1]);
    }
  }

  lemma FailureVerdict(b: Breaker, now: Time)
    requires b.settings.threshold > 0.0
    ensures var after := OnFailure(b, now);
      var trips := Outvoted(|after.failures|, |after.successes|, b.settings.threshold);
      && (after.state.Open? <==> b.state.Open? || b.state.HalfOpen? || trips)
      && (after.lastChange == if b.state.Open? || !after.state.Open? then b.lastChange else now)
  {
    var after := OnFailure(b, now);
    OverThresholdMeans(|after.failures|, |after.successes|, b.settings.threshold);
  }

  /** A failure call on a breaker whose lists are the histories `f` and `s` cut at `high`. */
  lemma FailureOutcome(b: Breaker, f: seq<Time>, s: seq<Time>, high: Time, now: Time)
    requires b.settings.threshold > 0.0 && b.settings.window > 0
    requires b.failures == After(f, high) && b.successes == After(s, high) && high < now
    requires NoneBetween(f, now - b.settings.window, high) && NoneBetween(s, now - b.settings.window, high)
    ensures FailureOutcomeIs(b, f, s, now)
  {
    hide OnFailure, OnSuccess, Outvoted, After;
    var cutoff, c := now - b.settings.window, Max(high, now - b.settings.window);
    RecordCutsFurther(b, f, s, high, now);
    AfterLaterCutoff(f + [now], cutoff, c);
    AfterLaterCutoff(s, cutoff, c);
    FailureVerdict(b, now);
  }

  /** What a failure at `now` does, in terms of the histories inside the current window. */
  ghost predicate FailureOutcomeIs(b: Breaker, f: seq<Time>, s: seq<Time>, now: Time) {
    var cutoff := now - b.settings.window;
    var after := OnFailure(b, now);
    var trips := Outvoted(|After(f + [now], cutoff)|, |After(s, cutoff)|, b.settings.threshold);
    && (after.state.Open? <==> b.state.Open? || b.state.HalfOpen? || trips)
    && (after.lastChange == if b.state.Open? || !after.state.Open? then b.lastChange else now)
  }

  /** A failure opens a closed breaker exactly when the failures in the window outnumber the threshold
      share of all calls in the window, counted over the unpruned history. It opens a half-open
      breaker always and changes nothing about an open one. */
  lemma FailureTripsExactly(t0: Time, es: seq<Event>, now: Time)
    requires Clocked(t0, es) && t0 <= now && (es != [] ==> es[|es| - 1].at <= now)
    requires Intact(t0, es, now)
    ensures FailureOutcomeIs(Run(New(t0), es), FailureLog(t0, es), SuccessLog(es), now)
  {
    PrunedListsRefineHistory(t0, es);
    HighWaterIsPast(t0, es, now);
    SettingsStayLegal(t0, es);
    ThresholdStaysPositive(t0, es);
    FailureOutcome(Run(New(t0), es), FailureLog(t0, es), SuccessLog(es), HighWater(t0, es), now);
  }

  /** The breaker is configured before its first use and always alike. */
  predicate Fixed(es: seq<Event>, s: Settings) {
    && (es != [] ==> es[0].Reconfigure?)
    && forall i :: 0 <= i < |es| && es[i].Reconfigure? ==> es[i].next == s
  }

  lemma {:induction false} FixedSettings(t0: Time, es: seq<Event>, s: Settings)
    requires Fixed(es, s)
    ensures es != [] ==> Run(New(t0), es).settings == Reconfigured(DEFAULTS, s)
    ensures WindowKept(New(t0), es)
  {
    if es != [] {
      var before := es[..|es| - 1];
      assert before != [] ==> before[0] == es[0];
      FixedSettings(t0, before, s);
    }
  }

  /** With fixed settings, however long the window, every failure call decides on the whole history inside
      the window, and every record call leaves exactly that history. */
  lemma FixedSettingsTripExactly(t0: Time, es: seq<Event>, s: Settings, now: Time)
    requires Clocked(t0, es) && es != [] && es[|es| - 1].at <= now && Fixed(es, s)
    ensures Run(New(t0), es).settings == Reconfigured(DEFAULTS, s)
    ensures FailureOutcomeIs(Run(New(t0), es), FailureLog(t0, es), SuccessLog(es), now)
    ensures Records(es[|es| - 1]) ==>
      var b := Run(New(t0), es);
      var cutoff := es[|es| - 1].at - b.settings.window;
      b.failures == After(FailureLog(t0, es), cutoff) && b.successes == After(SuccessLog(es), cutoff)
  {
    FixedSettings(t0, es, s);
    KeptWindowIsIntact(t0, es, now);
    FailureTripsExactly(t0, es, now);
    if Records(es[|es| - 1]) {
      RecordSeesExactWindow(t0, es);
    }
  }

  /** A failure, a success that prunes it, a longer window, another success. */
  function LengthenedRun(): seq<Event> {
    [Failure(0), Success(70 * SECOND),
     Reconfigure(70 * SECOND, Settings(0.5, 100 * SECOND, 30 * SECOND)), Success(71 * SECOND)]
  }

  /** Lengthening the window does not bring pruned entries back: at the end of this run the failure at
      0 lies inside the window of 100 s but has been dropped. */
  lemma LongerWindowDoesNotRecover()
    ensures var es := LengthenedRun();
      var b := Run(New(0), es);
      && Clocked(0, es) && Records(es[|es| - 1]) && b.settings.window == 100 * SECOND
      && b.failures == [] && After(FailureLog(0, es), es[|es| - 1].at - b.settings.window) == [0]
  {
    LengthenedRunState();
  }

  lemma LengthenedRunState()
    ensures var b := Run(New(0), LengthenedRun());
      b.failures == [] && b.settings.window == 100 * SECOND
    ensures FailureLog(0, LengthenedRun()) == [0]
  {
    var b0 := New(0);
    var e0, e1, e3 := Failure(0), Success(70 * SECOND), Success(71 * SECOND);
    var e2 := Reconfigure(70 * SECOND, Settings(0.5, 100 * SECOND, 30 * SECOND));
    var es1, es2 := [] + [e0], [] + [e0] + [e1];
    var es3 := es2 + [e2];
    assert LengthenedRun() == es3 + [e3];
    FirstFailure();
    RunSnoc(b0, [], e0);
    RunSnoc(b0, es1, e1);
    RunSnoc(b0, es2, e2);
    RunSnoc(b0, es3, e3);
    LogsSnoc(0, [], e0);
    LogsSnoc(0, es1, e1);
    LogsSnoc(0, es2, e2);
    LogsSnoc(0, es3, e3);
    RecordedLists(Run(b0, es3), 71 * SECOND);
  }

  lemma FirstFailure()
    ensures OnFailure(New(0), 0) == Breaker(Open, [0], [], 0, DEFAULTS)
    ensures OnSuccess(OnFailure(New(0), 0), 70 * SECOND) == Breaker(Open, [], [70 * SECOND], 0, DEFAULTS)
  {
    OverThresholdMeans(1, 0, 0.5);
    AfterSnoc([], 0, 10 * SECOND);
    assert [] + [0] == [0];
  }

  /** Two early successes, two failures, and a success after the early ones have aged out. */
  function AgingRun(): seq<Event> {
    [Success(0), Success(0), Failure(50 * SECOND), Failure(50 * SECOND), Success(70 * SECOND)]
  }

  /** A closed breaker may sit above its threshold: pruning old successes raises the rate, and only a
      failure call trips. */
  lemma ClosedRateMayExceedThreshold()
    ensures var b := Run(New(0), AgingRun());
      && Clocked(0, AgingRun()) && b.state.Closed?
      && OverThreshold(|b.failures|, |b.successes|, b.settings.threshold)
  {
    hide Run, OverThreshold;
    AgingRunState();
  }

  lemma AgingRunState()
    ensures Run(New(0), AgingRun()) ==
      OnSuccess(Breaker(Closed, [50 * SECOND, 50 * SECOND], [0, 0], 0, DEFAULTS), 70 * SECOND)
    ensures var b := Run(New(0), AgingRun());
      b.state.Closed? && OverThreshold(|b.failures|, |b.successes|, b.settings.threshold)
  {
    var b0 := New(0);
    var e0, e2 := Success(0), Failure(50 * SECOND);
    var es4 := [] + [e0] + [e0] + [e2] + [e2];
    assert Run(b0, es4) == Breaker(Closed, [50 * SECOND, 50 * SECOND], [0, 0], 0, DEFAULTS) by {
      RunSnoc(b0, [], e0);
      RunSnoc(b0, [] + [e0], e0);
      RunSnoc(b0, [] + [e0] + [e0], e2);
      RunSnoc(b0, [] + [e0] + [e0] + [e2], e2);
      TwoSuccessesTwoFailures();
    }
    RunSnoc(b0, es4, Success(70 * SECOND));
    assert AgingRun() == es4 + [Success(70 * SECOND)];
    AgedOut(Run(b0, es4));
  }

  lemma TwoSuccessesTwoFailures()
    ensures var t := 50 * SECOND;
      OnFailure(OnFailure(OnSuccess(OnSuccess(New(0), 0), 0), t), t) == Breaker(Closed, [t, t], [0, 0], 0, DEFAULTS)
  {
    var t := 50 * SECOND;
    AfterSnoc([], 0, -60 * SECOND);
    AfterSnoc([], 0, -10 * SECOND);
    AfterSnoc([0], 0, -10 * SECOND);
    AfterSnoc([], t, -10 * SECOND);
    assert [0] + [0] == [0, 0] && [] + [0] == [0];
    assert OnSuccess(OnSuccess(New(0), 0), 0) == Breaker(Closed, [], [0, 0], 0, DEFAULTS);
    OverThresholdMeans(1, 2, 0.5);
    OverThresholdMeans(2, 2, 0.5);
    assert OnFailure(Breaker(Closed, [], [0, 0], 0, DEFAULTS), t) == Breaker(Closed, [t], [0, 0], 0, DEFAULTS);
  }

  lemma AgedOut(b: Breaker)
    requires b == Breaker(Closed, [50 * SECOND, 50 * SECOND], [0, 0], 0, DEFAULTS)
    ensures var c := OnSuccess(b, 70 * SECOND);
      c.state.Closed? && OverThreshold(|c.failures|, |c.successes|, c.settings.threshold)
  {
    var t, cutoff := 50 * SECOND, 10 * SECOND;
    AfterSnoc([0], 0, cutoff);
    AfterSnoc([], 0, cutoff);
    AfterSnoc([t], t, cutoff);
    AfterSnoc([], t, cutoff);
    assert [0] + [0] == [0, 0] && [] + [0] == [0] && [t] + [t] == [t, t] && [] + [t] == [t];
    OverThresholdMeans(2, 1, 0.5);
  }

  // ----- the state machine -----

  /** Every move between states: an open breaker waits for an Allow after its cooldown; a half-open one is closed
      by a success and opened by a failure, and by nothing else; a closed one is opened by a failure only. The
      time of the last change is that of the move. */
  lemma Transitions(b: Breaker, e: Event)
    ensures var n := Step(b, e);
      && (b.state.Open? ==>
            n.state == if e.AllowCall? && e.at - b.lastChange >= b.settings.cooldown then HalfOpen else Open)
      && (b.state.HalfOpen? ==> n.state == if e.Success? then Closed else if e.Failure? then Open else HalfOpen)
      && (b.state.Closed? ==> n.state.Closed? || (n.state.Open? && e.Failure?))
      && n.lastChange == (if n.state == b.state then b.lastChange else e.at)
      && (b.state.HalfOpen? && n.state.Closed? ==> n.failures == [])
  {
  }

  /** An Allow is answered yes unless the breaker is open and cooling down. */
  lemma AllowsUnlessCooling(b: Breaker, now: Time)
    ensures !Refuses(b, now) <==> b.state != Open || now - b.lastChange >= b.settings.cooldown
  {
  }

  /** A success that closes a half-open breaker makes it forget its failures: the next failure opens it only if,
      alone, it outvotes the successes in the window. */
  lemma ResetForgetsFailures(b: Breaker, t: Time, now: Time)
    requires b.state.HalfOpen? && b.settings.threshold > 0.0 && b.settings.window > 0
    ensures var r := Step(b, Success(t));
      && r.state.Closed?
      && (Step(r, Failure(now)).state.Open? <==>
            Outvoted(1, |After(r.successes, now - b.settings.window)|, b.settings.threshold))
  {
    var r := Step(b, Success(t));
    Transitions(b, Success(t));
    FailureVerdict(r, now);
    RecordedLists(r, now);
    assert After(r.failures, now - b.settings.window) == [];
  }

  /** A breaker that forgets nothing: it keeps every success, and every failure since it last closed, and looks at
      its whole history whenever a failure comes in. */
  datatype Plain = Plain(state: State, since: Time, failures: seq<Time>, successes: seq<Time>, settings: Settings)

  /** How many of `ts` are later than `from`. */
  function Later(ts: seq<Time>, from: Time): nat {
    if ts == [] then 0 else Later(ts[..|ts| - 1], from) + if ts[|ts| - 1] > from then 1 else 0
  }

  predicate MustOpen(p: Plain, now: Time) {
    var f, s := Later(p.failures, now - p.settings.window), Later(p.successes, now - p.settings.window);
    p.state.HalfOpen? || (p.state.Closed? && f as real > p.settings.threshold * (f + s) as real)
  }

  function Watch(p: Plain, e: Event): Plain {
    match e
    case AllowCall(t) =>
      if p.state.Open? && t >= p.since + p.settings.cooldown then p.(state := HalfOpen, since := t) else p
    case Success(t) =>
      var q := p.(successes := p.successes + [t]);
      if p.state.HalfOpen? then q.(state := Closed, since := t, failures := []) else q
    case Failure(t) =>
      var q := p.(failures := p.failures + [t]);
      if MustOpen(q, t) then q.(state := Open, since := t) else q
    case Reconfigure(_, s) =>
      p.(settings := Settings(
        if 0.0 < s.threshold <= 1.0 then s.threshold else p.settings.threshold,
        if s.window > 0 then s.window else p.settings.window,
        if s.cooldown > 0 then s.cooldown else p.settings.cooldown))
  }

  function Watched(t0: Time, es: seq<Event>): Plain {
    if es == [] then Plain(Closed, t0, [], [], Settings(0.5, 60_000_000_000, 30_000_000_000))
    else Watch(Watched(t0, es[..|es| - 1]), es[|es| - 1])
  }

  lemma {:induction false} LaterIsAfter(ts: seq<Time>, from: Time)
    ensures Later(ts, from) == |After(ts, from)|
  {
    if ts != [] {
      LaterIsAfter(ts[..|ts| - 1], from);
    }
  }

  predicate Mirrors(p: Plain, b: Breaker, failures: seq<Time>, successes: seq<Time>) {
    && p.state == b.state && p.since == b.lastChange && p.settings == b.settings
    && p.failures == failures && p.successes == successes
  }

  lemma FailureMoves(b: Breaker, now: Time)
    ensures var after := OnFailure(b, now);
      after.state == if after.state.Open? then Open else b.state
    ensures !b.state.Closed? ==> OnFailure(b, now).state.Open?
  {
  }

  lemma MirroredFailure(p: Plain, b: Breaker, f: seq<Time>, s: seq<Time>, now: Time)
    requires Mirrors(p, b, f, s) && FailureOutcomeIs(b, f, s, now)
    ensures var q := Watch(p, Failure(now));
      q.state == OnFailure(b, now).state && q.since == OnFailure(b, now).lastChange
  {
    hide After, Later, OnFailure;
    LaterIsAfter(f + [now], now - b.settings.window);
    LaterIsAfter(s, now - b.settings.window);
    FailureMoves(b, now);
  }

  lemma {:induction false} Mirrored(t0: Time, es: seq<Event>)
    requires Clocked(t0, es) && WindowKept(New(t0), es)
    ensures Mirrors(Watched(t0, es), Run(New(t0), es), FailureLog(t0, es), SuccessLog(es))
  {
    if es != [] {
      var before, e := es[..|es| - 1], es[|es| - 1];
      Mirrored(t0, before);
      if e.Failure? {
        KeptWindowIsIntact(t0, before, e.at);
        FailureTripsExactly(t0, before, e.at);
        MirroredFailure(Watched(t0, before), Run(New(t0), before), FailureLog(t0, before), SuccessLog(before), e.at);
      }
    }
  }

  /** The breaker, which forgets what it prunes, goes through the same states at the same times as one that forgets
      nothing, as long as its window is not lengthened after calls were recorded. */
  lemma RunsLikeTheFullHistory(t0: Time, es: seq<Event>)
    requires Clocked(t0, es) && WindowKept(New(t0), es)
    ensures var p, b := Watched(t0, es), Run(New(t0), es);
      p.state == b.state && p.since == b.lastChange && p.settings == b.settings
  {
    Mirrored(t0, es);
  }

  // ----- when a closed breaker is over its threshold -----

  predicate ClosedOver(b: Breaker) {
    b.state.Closed? && OverThreshold(|b.failures|, |b.successes|, b.settings.threshold)
  }

  /** What a call leads to, read off the breaker before it: a closed breaker that ends up above its
      threshold got there by a success that pruned old successes, or by a threshold set lower; never by a
      failure, and an Allow leaves it as it was. */
  lemma ClosedGoesOverExactly(b: Breaker, e: Event)
    requires b.settings.threshold > 0.0
    ensures ClosedOver(Step(b, e)) <==>
      b.state.Closed? &&
      match e
      case AllowCall(_) => Outvoted(|b.failures|, |b.successes|, b.settings.threshold)
      case Success(t) =>
        var p := Prune(b, t);
        Outvoted(|p.failures|, |p.successes| + 1, b.settings.threshold)
      case Failure(_) => false
      case Reconfigure(_, s) => Outvoted(|b.failures|, |b.successes|, Reconfigured(b.settings, s).threshold)
  {
    var next := Step(b, e);
    OverThresholdMeans(|next.failures|, |next.successes|, next.settings.threshold);
    if e.Success? && b.state.HalfOpen? {
      assert next.failures == [];
    }
  }

  /** Over the unpruned history: after a record call a closed breaker is above its threshold exactly when
      the call was a success and the failures in the window outvote the threshold all the same. */
  lemma ClosedOverAfterRecord(t0: Time, es: seq<Event>)
    requires es != [] && Records(es[|es| - 1]) && Clocked(t0, es) && Intact(t0, es, es[|es| - 1].at)
    ensures var b := Run(New(t0), es);
      var cutoff := es[|es| - 1].at - b.settings.window;
      ClosedOver(b) <==>
        && b.state.Closed? && es[|es| - 1].Success?
        && Outvoted(|After(FailureLog(t0, es), cutoff)|, |After(SuccessLog(es), cutoff)|, b.settings.threshold)
  {
    var before, e, b := es[..|es| - 1], es[|es| - 1], Run(New(t0), es);
    WindowIsExactExactlyWhen(t0, es);
    ThresholdStaysPositive(t0, before);
    ThresholdStaysPositive(t0, es);
    OverThresholdMeans(|b.failures|, |b.successes|, b.settings.threshold);
    if e.Failure? {
      ClosedGoesOverExactly(Run(New(t0), before), e);
    }
  }

  /** The call can be seen beforehand not to take a closed breaker above its threshold: a success for which
      no earlier success has aged out, or settings that do not lower the threshold. */
  predicate Harmless(b: Breaker, e: Event) {
    match e
    case AllowCall(_) => true
    case Success(t) => After(b.successes, t - b.settings.window) == b.successes
    case Failure(_) => true
    case Reconfigure(_, s) => !(0.0 < s.threshold < b.settings.threshold)
  }

  /** Since the last failure, or the last reset to Closed, every call was harmless. */
  predicate HarmlessSince(b: Breaker, es: seq<Event>) {
    es != [] ==>
      var before, e := es[..|es| - 1], es[|es| - 1];
      || e.Failure?
      || (e.Success? && Run(b, before).state.HalfOpen?)
      || (HarmlessSince(b, before) && Harmless(Run(b, before), e))
  }

  lemma MoreSuccessesOutvoteLess(f: nat, s: nat, f': nat, s': nat, threshold: real, threshold': real)
    requires !Outvoted(f, s, threshold) && f' <= f && s <= s' && 0.0 < threshold <= threshold' && threshold <= 1.0
    ensures !Outvoted(f', s', threshold')
  {
    var x, y := f as real, s as real;
    var x', y' := f' as real, s' as real;
    assert (1.0 - threshold) * x <= threshold * y;
    assert (1.0 - threshold) * x' <= (1.0 - threshold) * x;
    assert threshold * y <= threshold * y';
    assert threshold * (x' + y') <= threshold' * (x' + y');
  }

  lemma HarmlessStep(b: Breaker, e: Event)
    requires 0.0 < b.settings.threshold <= 1.0 && !ClosedOver(b) && Harmless(b, e)
    ensures !ClosedOver(Step(b, e))
  {
    ClosedGoesOverExactly(b, e);
    OverThresholdMeans(|b.failures|, |b.successes|, b.settings.threshold);
    if b.state.Closed? {
      match e {
        case Success(t) =>
          var p := Prune(b, t);
          MoreSuccessesOutvoteLess(|b.failures|, |b.successes|, |p.failures|, |p.successes| + 1,
            b.settings.threshold, b.settings.threshold);
        case Reconfigure(_, s) =>
          MoreSuccessesOutvoteLess(|b.failures|, |b.successes|, |b.failures|, |b.successes|,
            b.settings.threshold, Reconfigured(b.settings, s).threshold);
        case _ =>
      }
    }
  }

  lemma {:induction false} ThresholdStaysLegal(t0: Time, es: seq<Event>)
    ensures 0.0 < Run(New(t0), es).settings.threshold <= 1.0
  {
    if es != [] {
      ThresholdStaysLegal(t0, es[..|es| - 1]);
    }
  }

  /** As long as, since the last failure, no success has aged out and the threshold has not been lowered, a
      closed breaker is at or below its threshold. */
  lemma {:induction false} ClosedStaysWithinThreshold(t0: Time, es: seq<Event>)
    requires HarmlessSince(New(t0), es)
    ensures !ClosedOver(Run(New(t0), es))
  {
    if es != [] {
      var before, e := es[..|es| - 1], es[|es| - 1];
      ThresholdStaysLegal(t0, before);
      if e.Failure? || (e.Success? && Run(New(t0), before).state.HalfOpen?) {
        ClosedGoesOverExactly(Run(New(t0), before), e);
      } else {
        ClosedStaysWithinThreshold(t0, before);
        HarmlessStep(Run(New(t0), before), e);
      }
    }
  }

  // ----- cooldown -----

  /** The cooldown is at least `c` before every event of the run. */
  predicate CooldownAtLeast(b: Breaker, es: seq<Event>, c: int)
    decreases |es|
  {
    b.settings.cooldown >= c && (es != [] ==> CooldownAtLeast(Step(b, es[0]), es[1..], c))
  }

  function Answers(b: Breaker, es: seq<Event>): seq<bool>
    decreases |es|
  {
    if es == [] then []
    else (if es[0].AllowCall? then [!Refuses(b, es[0].at)] else []) + Answers(Step(b, es[0]), es[1..])
  }

  /** The times at which the breaker goes from another state into Open. */
  function Openings(b: Breaker, es: seq<Event>): seq<Time>
    decreases |es|
  {
    if es == [] then []
    else
      var next := Step(b, es[0]);
      (if !b.state.Open? && next.state.Open? then [es[0].at] else []) + Openings(next, es[1..])
  }

  function Final(b: Breaker, es: seq<Event>): Breaker
    decreases |es|
  {
    if es == [] then b else Final(Step(b, es[0]), es[1..])
  }

  lemma {:induction false} FinalIsRun(b: Breaker, es: seq<Event>, fs: seq<Event>)
    ensures Final(Run(b, es), fs) == Run(b, es + fs)
    decreases |fs|
  {
    if fs == [] {
      assert es + fs == es;
    } else {
      hide Step, Run;
      var longer := es + [fs[0]];
      RunSnoc(b, es, fs[0]);
      FinalIsRun(b, longer, fs[1..]);
      assert longer + fs[1..] == es + fs;
    }
  }

  /** Open is left by one door only. */
  lemma OpenIsLeftByAllow(b: Breaker, e: Event)
    requires b.state.Open?
    ensures var next := Step(b, e);
      if e.AllowCall? && e.at - b.lastChange >= b.settings.cooldown
      then next == b.(state := HalfOpen, lastChange := e.at)
      else next.state.Open? && next.lastChange == b.lastChange
  {
  }

  /** However other calls interleave, an open breaker refuses every `Allow` until its cooldown has
      passed since it opened. */
  lemma {:induction false} OpenRefusesUntilCooldown(b: Breaker, es: seq<Event>, c: int)
    requires b.state.Open? && CooldownAtLeast(b, es, c)
    requires forall i :: 0 <= i < |es| ==> es[i].at < b.lastChange + c
    ensures Final(b, es).state.Open? && Final(b, es).lastChange == b.lastChange
    ensures forall i :: 0 <= i < |Answers(b, es)| ==> !Answers(b, es)[i]
    ensures Openings(b, es) == []
    decreases |es|
  {
    if es != [] {
      OpenIsLeftByAllow(b, es[0]);
      OpenRefusesUntilCooldown(Step(b, es[0]), es[1..], c);
    }
  }

  /** The first entry is no earlier than `from`, and each next one at least `c` later. */
  predicate SpacedFrom(ts: seq<Time>, from: Time, c: int) {
    ts == [] || (ts[0] >= from && SpacedFrom(ts[1..], ts[0] + c, c))
  }

  function EarliestOpening(b: Breaker, from: Time, c: int): Time {
    if b.state.Open? then Max(from, b.lastChange + c) else from
  }

  lemma {:induction false} OpeningsAreSpaced(b: Breaker, es: seq<Event>, from: Time, c: int)
    requires Clocked(from, es) && CooldownAtLeast(b, es, c)
    ensures SpacedFrom(Openings(b, es), EarliestOpening(b, from, c), c)
    decreases |es|
  {
    if es != [] {
      var e, next := es[0], Step(b, es[0]);
      OpeningsAreSpaced(next, es[1..], e.at, c);
      var tail := Openings(next, es[1..]);
      if !b.state.Open? && next.state.Open? {
        assert ([e.at] + tail)[1..] == tail;
        assert EarliestOpening(next, e.at, c) <= Max(e.at, e.at + c);
      } else {
        assert [] + tail == tail;
      }
    }
  }

  lemma {:induction false} SpacedApart(ts: seq<Time>, from: Time, c: int, i: nat, j: nat)
    requires SpacedFrom(ts, from, c) && i <= j < |ts|
    ensures ts[j] >= ts[i] + (j - i) * c
    decreases |ts|, j
  {
    if i > 0 {
      SpacedApart(ts[1..], ts[0] + c, c, i - 1, j - 1);
    } else if j > 0 {
      SpacedApart(ts[1..], ts[0] + c, c, 0, j - 1);
      assert j * c == (j - 1) * c + c;
    }
  }

  /** The k-th entry into Open comes at least (k-1) cooldowns after the first, and in general the j-th
      at least (j - i) cooldowns after the i-th, from whatever state the breaker starts. */
  lemma TripSpacing(b: Breaker, from: Time, es: seq<Event>, c: int, i: nat, j: nat)
    requires Clocked(from, es) && CooldownAtLeast(b, es, c)
    requires i <= j < |Openings(b, es)|
    ensures Openings(b, es)[j] >= Openings(b, es)[i] + (j - i) * c
  {
    OpeningsAreSpaced(b, es, from, c);
    SpacedApart(Openings(b, es), EarliestOpening(b, from, c), c, i, j);
  }

  /** So a breaker opens at most `n` times within any stretch shorter than `n` cooldowns. */
  lemma TripsAreRateLimited(b: Breaker, from: Time, es: seq<Event>, c: int, i: nat, j: nat, n: nat)
    requires Clocked(from, es) && CooldownAtLeast(b, es, c) && c > 0
    requires i <= j < |Openings(b, es)|
    requires Openings(b, es)[j] - Openings(b, es)[i] < n * c
    ensures j - i + 1 <= n
  {
    TripSpacing(b, from, es, c, i, j);
    FewerSteps(j - i, n, c, Openings(b, es)[j] - Openings(b, es)[i]);
  }

  /** No reconfiguration sets a cooldown below `c`. */
  predicate NeverShortened(es: seq<Event>, c: int) {
    forall i :: 0 <= i < |es| && es[i].Reconfigure? ==> es[i].next.cooldown <= 0 || es[i].next.cooldown >= c
  }

  lemma {:induction false} CooldownStays(b: Breaker, es: seq<Event>, c: int)
    requires b.settings.cooldown >= c && NeverShortened(es, c)
    ensures CooldownAtLeast(b, es, c)
    decreases |es|
  {
    if es != [] {
      CooldownStays(Step(b, es[0]), es[1..], c);
    }
  }

  /** A breaker configured with any legal cooldown, which is then never shortened, opens again only after
      that cooldown, not the default one it was created with. */
  lemma ConfiguredTripSpacing(t0: Time, s: Settings, es: seq<Event>, i: nat, j: nat)
    requires Clocked(t0, es) && s.cooldown > 0 && NeverShortened(es, s.cooldown)
    requires i <= j < |Openings(Configured(New(t0), s), es)|
    ensures var times := Openings(Configured(New(t0), s), es);
      times[j] >= times[i] + (j - i) * s.cooldown
  {
    CooldownStays(Configured(New(t0), s), es, s.cooldown);
    TripSpacing(Configured(New(t0), s), t0, es, s.cooldown, i, j);
  }
}
