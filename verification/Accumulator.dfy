/** The usage accumulator of internal/stats/accumulator.go. */
module Accumulator {
  import opened Prelude
  import opened Models
  import opened Pricing
  import opened Tallies
  import opened Buckets
  import opened TimeSeries

  const RETENTION: int := 90 * 24 * HOUR

  /** An entry of one of the dashboard's lists. */
  datatype Listing = Listing(key: string, group: Group)

  datatype Dashboard = Dashboard(
    totalRequests: int,
    avgLatencyMs: real,
    errorRate: real,
    byModel: seq<Listing>,
    byProvider: seq<Listing>,
    byAPIKey: seq<Listing>)

  function Listed(out: Dashboard, d: Dim): seq<Listing> {
    match d
    case ByModel => out.byModel
    case ByProvider => out.byProvider
    case ByAPIKey => out.byAPIKey
  }

  function ErrorRate(t: Totals): real {
    if t.usage.requests == 0 then 0.0 else t.usage.errors as real / t.usage.requests as real
  }

  /** Busiest first; ties in any order. */
  predicate BusiestFirst(list: seq<Listing>) {
    forall i, j :: 0 <= i < j < |list| ==> list[i].group.requests >= list[j].group.requests
  }

  function KeysOf(list: seq<Listing>): (keys: seq<string>)
    ensures |keys| == |list| && forall i :: 0 <= i < |list| ==> keys[i] == list[i].key
  {
    seq(|list|, i requires 0 <= i < |list| => list[i].key)
  }

  /** Every entry of the map, once. */
  predicate ListsAll(list: seq<Listing>, m: Groups) {
    && Distinct(KeysOf(list))
    && (forall i :: 0 <= i < |list| ==> list[i].key in m && m[list[i].key] == list[i].group)
    && (forall key :: key in m ==> key in KeysOf(list))
  }

  /** The list names exactly the keys of the logs, busiest first, each with the numbers of its logs. */
  ghost predicate ListHolds(list: seq<Listing>, logs: seq<Entry>, d: Dim) {
    BusiestFirst(list) && exists m :: ListsAll(list, m) && GroupsHold(m, logs, Ever, d)
  }

  /** The dashboard read off a list of logs. */
  ghost predicate Summarizes(out: Dashboard, logs: seq<Entry>) {
    && out.totalRequests == Requests(logs, Ever, Everyone)
    && out.avgLatencyMs == Mean(Tally(logs, Ever, Everyone))
    && out.errorRate == ErrorRate(Tally(logs, Ever, Everyone))
    && forall d :: ListHolds(Listed(out, d), logs, d)
  }

  /** What the accumulator charts for bucket `b`: the logs of whole hours, input tokens clamped log by log. */
  function LivePoint(logs: seq<Entry>, g: Granularity, b: int): Point {
    Point(b, Tally(logs, Between(Start(g, b), Start(g, b + 1)), Everyone).usage)
  }

  function LiveSeries(logs: seq<Entry>, since: Time, until: Time, g: Granularity): seq<Point> {
    seq(Count(since, until, g), i => LivePoint(logs, g, BucketOf(g, since) + i))
  }

  /** A call of Record: the log with its cost, and the clock reading. */
  datatype Recorded = Recorded(entry: Entry, now: Time)

  /** The logs that buckets stand for after `k` calls, starting from those in `logs`. */
  function LiveFrom(logs: seq<Entry>, run: seq<Recorded>, k: nat): seq<Entry>
    requires k <= |run|
  {
    if k == 0 then logs
    else Retain(LiveFrom(logs, run, k - 1) + [run[k - 1].entry], run[k - 1].now - RETENTION)
  }

  lemma HasElement(s: set<int>)
    requires s != {}
    ensures exists x :: x in s
  {
    assert (forall x :: x !in s) ==> s == {};
  }

  /** The page size of Backfill. */
  const PAGE := 500

  function LogsSince(table: seq<RequestLog>, since: Time): seq<RequestLog> {
    if table == [] then []
    else
      var rest, l := LogsSince(table[..|table| - 1], since), table[|table| - 1];
      if l.timestamp >= since then rest + [l] else rest
  }

  lemma NextBackfilled(first: seq<Entry>, logs: seq<RequestLog>, costs: (string, string) -> Option<ProviderModel>,
      clock: nat -> Time, i: nat)
    requires i < |logs|
    ensures var run, l := Backfilled(logs, costs, clock), logs[i];
      var e := Entry(l, ForRequestLog(Some(l), costs(l.providerID, l.resolvedModel)));
      |run| == |logs| && LiveFrom(first, run, i + 1) == Retain(LiveFrom(first, run, i) + [e], clock(i) - RETENTION)
  {
  }

  /** Page `failsAt` is reached when all pages before it are full. */
  predicate FailsWithin(failsAt: Option<nat>, n: nat) {
    failsAt.Some? && PAGE * failsAt.value <= n
  }

  function Backfilled(logs: seq<RequestLog>, costs: (string, string) -> Option<ProviderModel>, clock: nat -> Time):
      (run: seq<Recorded>)
    ensures |run| == |logs|
  {
    seq(|logs|, i requires 0 <= i < |logs| => RecordOf(logs[i], costs, clock(i)))
  }

  function RecordOf(log: RequestLog, costs: (string, string) -> Option<ProviderModel>, now: Time): Recorded {
    Recorded(Entry(log, ForRequestLog(Some(log), costs(log.providerID, log.resolvedModel))), now)
  }

  // ----- the object -----

  /** `live` is the list of logs that the buckets stand for. */
  class Accumulator {
    var hourly: map<int, BucketStats>
    ghost var live: seq<Entry>

    ghost predicate Valid()
      reads this, hourly.Values
    {
      Holds(hourly, live)
    }

    constructor ()
      ensures Valid() && live == [] && hourly == map[]
    {
      hourly := map[];
      live := [];
    }

    method Record(log: Option<RequestLog>, pm: Option<ProviderModel>, now: Time)
      requires Valid()
      modifies this, hourly.Values
      ensures Valid() && fresh(hourly.Values - old(hourly.Values))
      ensures live == if log.None? then old(live)
        else Retain(old(live) + [Entry(log.value, ForRequestLog(log, pm))], now - RETENTION)
    {
      if log.None? {
        return;
      }
      AddLog(log.value, ForRequestLog(log, pm));
      PruneLocked(now - RETENTION);
    }

    method AddLog(log: RequestLog, cost: Breakdown)
      requires Valid()
      modifies this, hourly.Values
      ensures Valid() && fresh(hourly.Values - old(hourly.Values))
      ensures live == old(live) + [Entry(log, cost)]
    {
      var key := HourOf(log.timestamp);
      var bkt := EnsureBucket(key);
      ghost var was := bkt.Value();
      bkt.ApplyLog(log, cost);
      ghost var e := Entry(log, cost);
      live := live + [e];
      forall h ensures HourIs(Held(hourly, h), live, h) {
        hide HourIs, Applied;
        if h == key {
          LogReachesItsHour(old(Held(hourly, h)), old(live), e);
        } else {
          assert Held(hourly, h) == old(Held(hourly, h));
          LogMissesOtherHours(old(Held(hourly, h)), old(live), e, h);
        }
      }
    }

    method EnsureBucket(key: int) returns (bkt: BucketStats)
      requires Valid()
      modifies this`hourly
      ensures key in hourly && hourly[key] == bkt && hourly == old(hourly)[key := bkt]
      ensures if key in old(hourly) then bkt == old(hourly)[key] else fresh(bkt)
      ensures bkt.Value() == if key in old(hourly) then old(hourly)[key].Value() else EMPTY
    {
      if key in hourly {
        bkt := hourly[key];
        assert hourly == hourly[key := bkt];
      } else {
        bkt := new BucketStats();
        hourly := hourly[key := bkt];
      }
    }

    method PruneLocked(cutoff: Time)
      requires Valid()
      modifies this
      ensures Valid() && hourly.Values <= old(hourly.Values)
      ensures live == Retain(old(live), cutoff)
    {
      var todo := hourly.Keys;
      while todo != {}
        invariant hourly.Values <= old(hourly.Values)
        invariant forall h :: h in hourly <==> h in old(hourly) && (h in todo || h * HOUR >= cutoff)
        invariant forall h :: h in hourly ==> hourly[h] == old(hourly)[h]
        invariant live == old(live) && todo <= old(hourly.Keys)
        decreases |todo|
      {
        HasElement(todo);
        var h :| h in todo;
        todo := todo - {h};
        if h * HOUR < cutoff {
          hourly := hourly - {h};
        }
      }
      forall h ensures HourIs(Held(hourly, h), Retain(live, cutoff), h) {
        hide HourIs;
        HourPruned(old(Held(hourly, h)), live, h, cutoff);
      }
      live := Retain(live, cutoff);
    }

    /** Totals and lists over the hours that start no earlier than `since`, in whatever order the map yields them. */
    method DashboardStats(since: Time) returns (out: Dashboard)
      requires Valid()
      ensures Summarizes(out, Retain(live, since))
    {
      var total, latencySum, errors := 0, 0, 0;
      var models, providers, keys: Groups := map[], map[], map[];
      var todo := hourly.Keys;
      ghost var done: set<int> := {};
      NoHoursYet(live);
      while todo != {}
        invariant todo <= hourly.Keys
        invariant forall h :: h in done <==> h in hourly && h !in todo && h * HOUR >= since
        invariant SummedOver(live, done, total, latencySum, errors, models, providers, keys)
        decreases |todo|
      {
        hide SummedOver, HourIs;
        HasElement(todo);
        var h :| h in todo;
        todo := todo - {h};
        if h * HOUR < since {
          continue;
        }
        var b := hourly[h];
        assert HourIs(Held(hourly, h), live, h);
        HourJoins(live, done, h, b.Value(), total, latencySum, errors, models, providers, keys);
        total := total + b.requests;
        latencySum := latencySum + b.latencySumMs;
        errors := errors + b.errorCount;
        models, providers, keys := MergeBucket(models, providers, keys, b);
        done := done + {h};
      }
      hide SummedOver, Summarizes;
      forall e | e in live ensures HourOf(e.log.timestamp) in done <==> Keeps(since, e) {
        LiveHourIsHeld(hourly, live, e);
      }
      AllHoursJoined(live, since, done, total, latencySum, errors, models, providers, keys);
      var byModel := SortedList(models);
      var byProvider := SortedList(providers);
      var byAPIKey := SortedList(keys);
      out := Dashboard(total, 0.0, 0.0, byModel, byProvider, byAPIKey);
      if total > 0 {
        out := out.(avgLatencyMs := latencySum as real / total as real, errorRate := errors as real / total as real);
      }
      SummaryHolds(out, Retain(live, since), total, latencySum, errors, models, providers, keys);
    }

    method TimeSeries(since: Time, until: Time, granularity: string) returns (series: Option<seq<Point>>)
      requires Valid()
      ensures series.None? <==> granularity != "hour" && granularity != "day"
      ensures series.Some? ==> series.value == LiveSeries(live, since, until, Parse(granularity).value)
    {
      var g := Parse(granularity);
      if g.None? {
        return None;
      }
      var points := LiveChart(since, until, g.value);
      return Some(points);
    }

    method LiveChart(since: Time, until: Time, g: Granularity) returns (points: seq<Point>)
      requires Valid()
      ensures points == LiveSeries(live, since, until, g)
    {
      points := [];
      var t := Start(g, BucketOf(g, since));
      while t <= until
        invariant t == Start(g, BucketOf(g, since) + |points|)
        invariant |points| <= Count(since, until, g)
        invariant forall i :: 0 <= i < |points| ==> points[i] == LivePoint(live, g, BucketOf(g, since) + i)
        decreases until - t
      {
        hide LivePoint, Holds;
        var p;
        if g.Hourly? {
          p := PointFromBucket(t / HOUR);
        } else {
          p := AggregateDay(t / DAY);
        }
        points := points + [p];
        t := t + Step(g);
      }
    }

    method PointFromBucket(h: int) returns (p: Point)
      requires Valid()
      ensures p == LivePoint(live, Hourly, h)
    {
      HourSpan(live, h);
      assert HourIs(Held(hourly, h), live, h);
      if h !in hourly {
        NoRequestsNothing(live, Hours({h}), Everyone);
        return Point(h, ZERO);
      }
      return Point(h, hourly[h].Usage());
    }

    /** The buckets whose key begins with the day, in whatever order the map yields them. */
    method AggregateDay(day: int) returns (p: Point)
      requires Valid()
      ensures p == LivePoint(live, Daily, day)
    {
      var usage := ZERO;
      var todo := hourly.Keys;
      ghost var done: set<int> := {};
      TallyNone(live, Hours({}), Everyone);
      while todo != {}
        invariant todo <= hourly.Keys
        invariant forall h :: h in done <==> h in hourly && h !in todo && h / 24 == day
        invariant usage == Tally(live, Hours(done), Everyone).usage
        decreases |todo|
      {
        hide Tally, AddUsage;
        HasElement(todo);
        var h :| h in todo;
        todo := todo - {h};
        if h / 24 != day {
          continue;
        }
        assert HourIs(Held(hourly, h), live, h);
        UsageJoins(live, done, h);
        usage := AddUsage(usage, hourly[h].Usage());
        done := done + {h};
      }
      forall e | e in live ensures HourOf(e.log.timestamp) in done <==> HourOf(e.log.timestamp) / 24 == day {
        LiveHourIsHeld(hourly, live, e);
      }
      DaySpan(live, day, done);
      p := Point(day, usage);
    }

    /** Backfill over a table that does not change: pages of 500 of the logs since the retention cutoff, each log
        recorded at its own clock reading. `failsAt` is the page at which the context is cancelled or the query
        fails, if any. */
    method Backfill(table: seq<RequestLog>, start: Time, failsAt: Option<nat>,
        costs: (string, string) -> Option<ProviderModel>, clock: nat -> Time) returns (ok: bool)
      requires Valid()
      modifies this, hourly.Values
      ensures Valid()
      ensures var logs := LogsSince(table, start - RETENTION);
        && ok == !FailsWithin(failsAt, |logs|)
        && live == LiveFrom(old(live), Backfilled(logs, costs, clock), if ok then |logs| else PAGE * failsAt.value)
    {
      var logs := LogsSince(table, start - RETENTION);
      var offset, pages := 0, 0;
      while true
        invariant Valid() && fresh(hourly.Values - old(hourly.Values))
        invariant offset == PAGE * pages && (pages > 0 ==> offset <= |logs|)
        invariant failsAt.Some? ==> failsAt.value >= pages
        invariant live == LiveFrom(old(live), Backfilled(logs, costs, clock), Min(offset, |logs|))
        decreases |logs| + PAGE - offset
      {
        hide Holds, LiveFrom, LogsSince, RecordOf;
        if failsAt == Some(pages) {
          return false;
        }
        var end := Min(offset + PAGE, |logs|);
        if end <= offset {
          return true;
        }
        RecordPage(logs, offset, end, costs, clock, old(live));
        if end - offset < PAGE {
          return true;
        }
        offset := offset + PAGE;
        pages := pages + 1;
      }
    }

    /** One page: the logs from `offset` to `end` of the query's result. */
    method RecordPage(logs: seq<RequestLog>, offset: nat, end: nat, costs: (string, string) -> Option<ProviderModel>,
        clock: nat -> Time, ghost first: seq<Entry>)
      requires Valid() && offset <= end <= |logs| && live == LiveFrom(first, Backfilled(logs, costs, clock), offset)
      modifies this, hourly.Values
      ensures Valid() && fresh(hourly.Values - old(hourly.Values))
      ensures live == LiveFrom(first, Backfilled(logs, costs, clock), end)
    {
      hide Holds, Retain, LiveFrom, Backfilled, RecordOf;
      var i := offset;
      while i < end
        invariant offset <= i <= end
        invariant Valid() && fresh(hourly.Values - old(hourly.Values))
        invariant live == LiveFrom(first, Backfilled(logs, costs, clock), i)
      {
        var pm := costs(logs[i].providerID, logs[i].resolvedModel);
        Record(Some(logs[i]), pm, clock(i));
        NextBackfilled(first, logs, costs, clock, i);
        i := i + 1;
      }
    }
  }

  method MergeBucket(models: Groups, providers: Groups, keys: Groups, b: BucketStats)
    returns (models': Groups, providers': Groups, keys': Groups)
    ensures models' == Merged(models, b.Value().byModel)
    ensures providers' == Merged(providers, b.Value().byProvider)
    ensures keys' == Merged(keys, b.Value().byAPIKey)
  {
    models' := MergeInto(models, b.byModel);
    providers' := MergeInto(providers, b.byProvider);
    keys' := MergeInto(keys, b.byAPIKey);
  }

  function InsertListing(list: seq<Listing>, l: Listing): (r: seq<Listing>)
    requires BusiestFirst(list)
    ensures BusiestFirst(r) && forall x :: x in r <==> x in list || x == l
  {
    if list == [] then [l]
    else if l.group.requests >= list[0].group.requests then
      [l] + list
    else
      var head, tail := list[0], InsertListing(list[1..], l);
      assert list == [head] + list[1..];
      assert forall i :: 0 <= i < |tail| ==> tail[i] in tail;
      [head] + tail
  }

  /** Collecting the entries of the map in whatever order and sorting them; stands for sort.Slice. */
  method SortedList(m: Groups) returns (list: seq<Listing>)
    ensures BusiestFirst(list) && ListsAll(list, m)
  {
    list := [];
    var todo := m.Keys;
    while todo != {}
      invariant todo <= m.Keys && BusiestFirst(list)
      invariant forall l :: l in list <==> l.key in m && l.key !in todo && l.group == m[l.key]
      invariant OncePerKey(list)
      decreases |todo|
    {
      var key :| key in todo;
      todo := todo - {key};
      InsertedOnce(list, Listing(key, m[key]));
      list := InsertListing(list, Listing(key, m[key]));
    }
    forall key | key in m ensures key in KeysOf(list) {
      assert Listing(key, m[key]) in list;
      var i :| 0 <= i < |list| && list[i] == Listing(key, m[key]);
      assert KeysOf(list)[i] == key;
    }
    assert forall i :: 0 <= i < |list| ==> list[i] in list;
  }

  predicate OncePerKey(list: seq<Listing>) {
    forall i, j :: 0 <= i < j < |list| ==> list[i].key != list[j].key
  }

  lemma {:induction false} InsertedOnce(list: seq<Listing>, l: Listing)
    requires BusiestFirst(list) && OncePerKey(list) && forall x :: x in list ==> x.key != l.key
    ensures OncePerKey(InsertListing(list, l))
  {
    if list != [] && l.group.requests < list[0].group.requests {
      InsertedOnce(list[1..], l);
      var tail := InsertListing(list[1..], l);
      forall j | 0 <= j < |tail| ensures tail[j].key != list[0].key {
        assert tail[j] in tail;
        if tail[j] != l {
          assert tail[j] in list[1..];
          var k :| 0 <= k < |list[1..]| && list[1..][k] == tail[j];
          assert list[k + 1] == tail[j];
        } else {
          assert list[0] in list;
        }
      }
      assert InsertListing(list, l) == [list[0]] + tail;
    }
  }

  predicate Counted(t: Totals, total: int, latencySum: int, errors: int) {
    t.usage.requests == total && t.latencyMs == latencySum && t.usage.errors == errors
  }

  /** The dashboard's running sums after merging the hours in `done`. */
  ghost predicate SummedOver(live: seq<Entry>, done: set<int>, total: int, latencySum: int, errors: int,
    models: Groups, providers: Groups, keys: Groups)
  {
    && Counted(Tally(live, Hours(done), Everyone), total, latencySum, errors)
    && GroupsHold(models, live, Hours(done), ByModel)
    && GroupsHold(providers, live, Hours(done), ByProvider)
    && GroupsHold(keys, live, Hours(done), ByAPIKey)
  }

  lemma NoHoursYet(live: seq<Entry>)
    ensures SummedOver(live, {}, 0, 0, 0, map[], map[], map[])
  {
    TallyNone(live, Hours({}), Everyone);
    forall d, key ensures KeyHolds(map[], live, Hours({}), d, key) {
      TallyNone(live, Hours({}), Holder(d, key));
    }
  }

  lemma HourJoins(live: seq<Entry>, done: set<int>, h: int, b: Bucket, total: int, latencySum: int, errors: int,
      models: Groups, providers: Groups, keys: Groups)
    requires h !in done && BucketHolds(b, live, h)
    requires SummedOver(live, done, total, latencySum, errors, models, providers, keys)
    ensures SummedOver(live, done + {h}, total + b.totals.usage.requests, latencySum + b.totals.latencyMs,
      errors + b.totals.usage.errors, Merged(models, b.byModel), Merged(providers, b.byProvider), Merged(keys, b.byAPIKey))
  {
    hide GroupsHold, Tally, Merged, Counted;
    CountsJoin(live, done, h, b.totals, total, latencySum, errors);
    GroupsJoin(models, b, live, done, h, ByModel);
    GroupsJoin(providers, b, live, done, h, ByProvider);
    GroupsJoin(keys, b, live, done, h, ByAPIKey);
  }

  lemma OneMoreHour(done: set<int>, h: int)
    requires h !in done
    ensures forall t :: Splits(Hours(done + {h}), Hours(done), Hours({h}), t)
  {
  }

  lemma CountsJoin(live: seq<Entry>, done: set<int>, h: int, t: Totals, total: int, latencySum: int, errors: int)
    requires h !in done && t == Tally(live, Hours({h}), Everyone)
    requires Counted(Tally(live, Hours(done), Everyone), total, latencySum, errors)
    ensures Counted(Tally(live, Hours(done + {h}), Everyone), total + t.usage.requests, latencySum + t.latencyMs,
      errors + t.usage.errors)
  {
    OneMoreHour(done, h);
    TallySplit(live, Hours(done + {h}), Hours(done), Hours({h}), Everyone);
  }

  lemma GroupsJoin(m: Groups, b: Bucket, live: seq<Entry>, done: set<int>, h: int, d: Dim)
    requires h !in done && GroupsHold(m, live, Hours(done), d) && BucketHolds(b, live, h)
    ensures GroupsHold(Merged(m, By(b, d)), live, Hours(done + {h}), d)
  {
    OneMoreHour(done, h);
    assert GroupsHold(By(b, d), live, Hours({h}), d);
    hide BucketHolds, GroupsHold;
    MergedGroupsHold(m, By(b, d), live, Hours(done + {h}), Hours(done), Hours({h}), d);
  }

  lemma LiveHourIsHeld(hourly: map<int, BucketStats>, live: seq<Entry>, e: Entry)
    requires Holds(hourly, live) && e in live
    ensures HourOf(e.log.timestamp) in hourly
  {
    var h := HourOf(e.log.timestamp);
    ItsOwnRequest(live, Hours({h}), Everyone, e);
    assert HourIs(Held(hourly, h), live, h);
  }

  /** Having merged every hour from `since` on, the sums are those of the logs retained from then on. */
  lemma AllHoursJoined(live: seq<Entry>, since: Time, done: set<int>, total: int, latencySum: int, errors: int,
      models: Groups, providers: Groups, keys: Groups)
    requires SummedOver(live, done, total, latencySum, errors, models, providers, keys)
    requires forall e :: e in live ==> (HourOf(e.log.timestamp) in done <==> Keeps(since, e))
    ensures var logs := Retain(live, since);
      && Counted(Tally(logs, Ever, Everyone), total, latencySum, errors)
      && GroupsHold(models, logs, Ever, ByModel)
      && GroupsHold(providers, logs, Ever, ByProvider)
      && GroupsHold(keys, logs, Ever, ByAPIKey)
  {
    RetainedTally(live, since, done, Everyone);
    RetainedGroups(models, live, since, done, ByModel);
    RetainedGroups(providers, live, since, done, ByProvider);
    RetainedGroups(keys, live, since, done, ByAPIKey);
  }

  lemma SummaryHolds(out: Dashboard, logs: seq<Entry>, total: int, latencySum: int, errors: int,
      models: Groups, providers: Groups, keys: Groups)
    requires Counted(Tally(logs, Ever, Everyone), total, latencySum, errors)
    requires GroupsHold(models, logs, Ever, ByModel) && ListsAll(out.byModel, models) && BusiestFirst(out.byModel)
    requires GroupsHold(providers, logs, Ever, ByProvider) && ListsAll(out.byProvider, providers)
    requires GroupsHold(keys, logs, Ever, ByAPIKey) && ListsAll(out.byAPIKey, keys)
    requires BusiestFirst(out.byProvider) && BusiestFirst(out.byAPIKey)
    requires out.totalRequests == total
    requires out.avgLatencyMs == if total > 0 then latencySum as real / total as real else 0.0
    requires out.errorRate == if total > 0 then errors as real / total as real else 0.0
    ensures Summarizes(out, logs)
  {
    assert out.totalRequests == Requests(logs, Ever, Everyone);
    hide GroupsHold, Tally, BusiestFirst, ListsAll;
    assert ListHolds(Listed(out, ByModel), logs, ByModel);
    assert ListHolds(Listed(out, ByProvider), logs, ByProvider);
    assert ListHolds(Listed(out, ByAPIKey), logs, ByAPIKey);
    forall d ensures ListHolds(Listed(out, d), logs, d) {
      match d {
        case ByModel =>
        case ByProvider =>
        case ByAPIKey =>
      }
    }
  }

  lemma RetainedGroups(m: Groups, live: seq<Entry>, since: Time, done: set<int>, d: Dim)
    requires GroupsHold(m, live, Hours(done), d)
    requires forall e :: e in live ==> (HourOf(e.log.timestamp) in done <==> Keeps(since, e))
    ensures GroupsHold(m, Retain(live, since), Ever, d)
  {
    forall key ensures KeyHolds(m, Retain(live, since), Ever, d, key) {
      assert KeyHolds(m, live, Hours(done), d, key);
      RetainedTally(live, since, done, Holder(d, key));
      if key in m {
        RetainedTally(live, since, done, Titled(d, key, m[key].name));
      }
    }
  }

  /** What Valid says of one hour: it has a bucket exactly when a live log falls in it, and the bucket is right. */
  ghost predicate HourIs(b: Option<Bucket>, live: seq<Entry>, h: int) {
    && (b.Some? <==> Requests(live, Hours({h}), Everyone) > 0)
    && (b.Some? ==> BucketHolds(b.value, live, h))
  }

  ghost function Held(hourly: map<int, BucketStats>, h: int): Option<Bucket>
    reads hourly.Values
  {
    if h in hourly then Some(hourly[h].Value()) else None
  }

  ghost predicate Holds(hourly: map<int, BucketStats>, live: seq<Entry>)
    reads hourly.Values
  {
    && (forall h, g | h in hourly && g in hourly && h != g :: hourly[h] != hourly[g])
    && forall h :: HourIs(Held(hourly, h), live, h)
  }

  lemma LogReachesItsHour(b: Option<Bucket>, live: seq<Entry>, e: Entry)
    requires HourIs(b, live, HourOf(e.log.timestamp))
    ensures HourIs(Some(Applied(if b.Some? then b.value else EMPTY, e.log, e.cost)), live + [e], HourOf(e.log.timestamp))
  {
    var h := HourOf(e.log.timestamp);
    if b.None? {
      EmptyBucketHolds(live, h);
    }
    AppliedBucketHolds(if b.Some? then b.value else EMPTY, live, e);
    RequestsSnoc(live, e, Hours({h}), Everyone);
  }

  lemma LogMissesOtherHours(b: Option<Bucket>, live: seq<Entry>, e: Entry, h: int)
    requires HourIs(b, live, h) && h != HourOf(e.log.timestamp)
    ensures HourIs(b, live + [e], h)
  {
    RequestsSnoc(live, e, Hours({h}), Everyone);
    if b.Some? {
      UntouchedBucketHolds(b.value, live, e, h);
    }
  }

  lemma HourPruned(b: Option<Bucket>, live: seq<Entry>, h: int, cutoff: Time)
    requires HourIs(b, live, h)
    ensures HourIs(if h * HOUR >= cutoff then b else None, Retain(live, cutoff), h)
  {
    RetainKeepsWholeHours(live, cutoff, h, Everyone);
    if b.Some? && h * HOUR >= cutoff {
      RetainedBucketHolds(b.value, live, h, cutoff);
    }
  }

  // ----- time series -----

  lemma HourSpan(live: seq<Entry>, h: int)
    ensures Tally(live, Hours({h}), Everyone) == Tally(live, Between(Start(Hourly, h), Start(Hourly, h + 1)), Everyone)
  {
    TallySame(live, Hours({h}), Between(Start(Hourly, h), Start(Hourly, h + 1)), Everyone);
  }

  lemma DaySpan(live: seq<Entry>, day: int, done: set<int>)
    requires forall e :: e in live ==> (HourOf(e.log.timestamp) in done <==> HourOf(e.log.timestamp) / 24 == day)
    ensures Tally(live, Hours(done), Everyone) == Tally(live, Between(Start(Daily, day), Start(Daily, day + 1)), Everyone)
  {
    TallySame(live, Hours(done), Between(Start(Daily, day), Start(Daily, day + 1)), Everyone);
  }

  lemma UsageJoins(live: seq<Entry>, done: set<int>, h: int)
    requires h !in done
    ensures Tally(live, Hours(done + {h}), Everyone).usage
      == AddUsage(Tally(live, Hours(done), Everyone).usage, Tally(live, Hours({h}), Everyone).usage)
  {
    OneMoreHour(done, h);
    TallySplit(live, Hours(done + {h}), Hours(done), Hours({h}), Everyone);
  }

  function LivePoints(logs: seq<Entry>, g: Granularity, b: int, n: nat): seq<Point> {
    seq(n, i => LivePoint(logs, g, b + i))
  }

  lemma {:induction false} LivePointsAddUp(logs: seq<Entry>, g: Granularity, b: int, n: nat, k: nat)
    requires k <= n
    ensures SumPoints(LivePoints(logs, g, b, n), k) == Tally(logs, Between(Start(g, b), Start(g, b + k)), Everyone).usage
    decreases k
  {
    hide Tally, AddUsage;
    var j := k - 1;
    if k == 0 {
      TallyNone(logs, Between(Start(g, b), Start(g, b)), Everyone);
    } else {
      LivePointsAddUp(logs, g, b, n, j);
      NextLivePoint(logs, g, b, j);
    }
  }

  lemma NextLivePoint(logs: seq<Entry>, g: Granularity, b: int, k: nat)
    ensures Tally(logs, Between(Start(g, b), Start(g, b + k + 1)), Everyone).usage
      == AddUsage(Tally(logs, Between(Start(g, b), Start(g, b + k)), Everyone).usage, LivePoint(logs, g, b + k).usage)
  {
    hide Tally, AddUsage;
    var whole, left := Between(Start(g, b), Start(g, b + k + 1)), Between(Start(g, b), Start(g, b + k));
    var right := Between(Start(g, b + k), Start(g, b + k + 1));
    forall t ensures Splits(whole, left, right, t) {
    }
    TallySplit(logs, whole, left, right, Everyone);
  }

  /** A day's point of the accumulator is the sum of its 24 hours' points, clamped input tokens included. */
  lemma LiveDayIsItsHours(logs: seq<Entry>, day: int)
    ensures LivePoint(logs, Daily, day).usage == SumPoints(LivePoints(logs, Hourly, 24 * day, 24), 24)
  {
    hide Tally, AddUsage;
    LivePointsAddUp(logs, Hourly, 24 * day, 24, 24);
    assert Start(Hourly, 24 * day) == Start(Daily, day) && Start(Hourly, 24 * day + 24) == Start(Daily, day + 1);
  }

  // ----- runs -----

  function Logs(run: seq<Recorded>, k: nat): seq<Entry>
    requires k <= |run|
  {
    if k == 0 then [] else Logs(run, k - 1) + [run[k - 1].entry]
  }

  ghost predicate ClockAdvances(run: seq<Recorded>) {
    forall i, j :: 0 <= i <= j < |run| ==> run[i].now <= run[j].now
  }

  /** With a clock that never goes back, the buckets stand for every log ever recorded whose hour starts at or
      after the latest cutoff: no hour is partly pruned. */
  lemma {:induction false} LiveIsTheRetainedRun(run: seq<Recorded>, k: nat)
    requires ClockAdvances(run) && 0 < k <= |run|
    ensures LiveFrom([], run, k) == Retain(Logs(run, k), run[k - 1].now - RETENTION)
  {
    var e, late := run[k - 1].entry, run[k - 1].now - RETENTION;
    if k > 1 {
      var early := run[k - 2].now - RETENTION;
      LiveIsTheRetainedRun(run, k - 1);
      RetainTwice(Logs(run, k - 1), early, late);
    }
    RetainSnoc(LiveFrom([], run, k - 1), e, late);
    RetainSnoc(Logs(run, k - 1), e, late);
  }

  /** After any run the map holds an hour exactly when it starts at or after the latest cutoff and some log of it
      was recorded, and its bucket is then right for all the logs ever recorded for that hour. */
  lemma {:induction false} HeldHoursAreComplete(hourly: map<int, BucketStats>, run: seq<Recorded>, h: int)
    requires ClockAdvances(run) && run != [] && Holds(hourly, LiveFrom([], run, |run|))
    ensures var all, cutoff := Logs(run, |run|), run[|run| - 1].now - RETENTION;
      && (h in hourly <==> h * HOUR >= cutoff && Requests(all, Hours({h}), Everyone) > 0)
      && (h in hourly ==> BucketHolds(hourly[h].Value(), all, h))
  {
    var all, cutoff := Logs(run, |run|), run[|run| - 1].now - RETENTION;
    LiveIsTheRetainedRun(run, |run|);
    assert HourIs(Held(hourly, h), Retain(all, cutoff), h);
    RetainKeepsWholeHours(all, cutoff, h, Everyone);
    if h in hourly {
      UnprunedBucketHolds(hourly[h].Value(), all, h, cutoff);
    }
  }

  lemma {:induction false} RetainKeepsLaterSpans(rows: seq<Entry>, cutoff: Time, span: Span, who: Who)
    requires forall r :: r in rows && Covers(span, r.log.timestamp) ==> Keeps(cutoff, r)
    ensures Tally(Retain(rows, cutoff), span, who) == Tally(rows, span, who)
  {
    if rows != [] {
      var init, r := rows[..|rows| - 1], rows[|rows| - 1];
      RetainKeepsLaterSpans(init, cutoff, span, who);
      TallySnoc(Retain(init, cutoff), r, span, who);
    }
  }

  /** The hour of a time in bucket `b` begins no earlier than the bucket. */
  lemma HourInBucket(g: Granularity, b: int, t: Time)
    requires Start(g, b) <= t
    ensures HourOf(t) * HOUR >= Start(g, b)
  {
    var h, first := HourOf(t), if g.Hourly? then b else 24 * b;
    assert h * HOUR <= t < h * HOUR + HOUR;
    assert Start(g, b) == first * HOUR;
    assert h >= first;
  }

  /** The accumulator after a run against the database with the same logs, priced alike: for a bucket that lies
      inside the window and not before the latest cutoff the two charts show the same, but for the clamping of
      input tokens; and entirely the same exactly when clamping takes nothing away there. */
  lemma {:induction false} ChartsAgree(run: seq<Recorded>, rows: seq<Row>, since: Time, until: Time, g: Granularity, b: int)
    requires ClockAdvances(run) && run != [] && Priced(rows) == Logs(run, |run|)
    requires since <= Start(g, b) && Start(g, b + 1) <= until + 1 && Start(g, b) >= run[|run| - 1].now - RETENTION
    ensures var span := Between(Start(g, b), Start(g, b + 1));
      var live := LivePoint(LiveFrom([], run, |run|), g, b).usage;
      var shown := Shown(Priced(rows), Cut(since, until + 1, Starts(g), b), Everyone);
      && shown == Unclamped(live)
      && (shown == live <==> ClampedAwayIn(Priced(rows), span, Everyone) == 0)
  {
    hide Tally, ClampedAwayIn, Unclamped, Priced, Retain, Logs, LiveFrom, Keeps;
    var all, cutoff, span := Logs(run, |run|), run[|run| - 1].now - RETENTION, Between(Start(g, b), Start(g, b + 1));
    LiveIsTheRetainedRun(run, |run|);
    LaterBucketIsKept(all, cutoff, g, b);
    assert Cut(since, until + 1, Starts(g), b) == span;
    InputTokensAgreeExactly(all, span, Everyone);
  }

  lemma LaterBucketIsKept(rows: seq<Entry>, cutoff: Time, g: Granularity, b: int)
    requires Start(g, b) >= cutoff
    ensures LivePoint(Retain(rows, cutoff), g, b) == LivePoint(rows, g, b)
  {
    hide Tally, Retain;
    forall r | r in rows && Covers(Between(Start(g, b), Start(g, b + 1)), r.log.timestamp) ensures Keeps(cutoff, r) {
      HourInBucket(g, b, r.log.timestamp);
    }
    RetainKeepsLaterSpans(rows, cutoff, Between(Start(g, b), Start(g, b + 1)), Everyone);
  }

  // ----- conservation -----

  function SumRequests(m: Groups, keys: seq<string>, k: nat): int
    requires k <= |keys| && forall i :: 0 <= i < k ==> keys[i] in m
  {
    if k == 0 then 0 else SumRequests(m, keys, k - 1) + m[keys[k - 1]].requests
  }

  function SumErrors(m: Groups, keys: seq<string>, k: nat): int
    requires k <= |keys| && forall i :: 0 <= i < k ==> keys[i] in m
  {
    if k == 0 then 0 else SumErrors(m, keys, k - 1) + m[keys[k - 1]].errors
  }

  lemma {:induction false} SumsOfGroups(m: Groups, logs: seq<Entry>, span: Span, d: Dim, keys: seq<string>, k: nat)
    requires GroupsHold(m, logs, span, d)
    requires k <= |keys| && forall i :: 0 <= i < k ==> keys[i] in m
    ensures SumRequests(m, keys, k) == SumOverKeys(logs, span, d, keys, k).usage.requests
    ensures SumErrors(m, keys, k) == SumOverKeys(logs, span, d, keys, k).usage.errors
  {
    if k > 0 {
      SumsOfGroups(m, logs, span, d, keys, k - 1);
      assert KeyHolds(m, logs, span, d, keys[k - 1]);
    }
  }

  lemma EveryKeyIsListed(m: Groups, logs: seq<Entry>, d: Dim, e: Entry)
    requires GroupsHold(m, logs, Ever, d) && e in logs
    ensures KeyOf(d, e.log) in m
  {
    ItsOwnRequest(logs, Ever, Holder(d, KeyOf(d, e.log)), e);
    assert KeyHolds(m, logs, Ever, d, KeyOf(d, e.log));
  }

  lemma GroupsAddUp(m: Groups, logs: seq<Entry>, d: Dim, keys: seq<string>)
    requires GroupsHold(m, logs, Ever, d)
    requires Distinct(keys) && forall key :: key in keys <==> key in m
    ensures SumRequests(m, keys, |keys|) == Tally(logs, Ever, Everyone).usage.requests
    ensures SumErrors(m, keys, |keys|) == Tally(logs, Ever, Everyone).usage.errors
  {
    hide GroupsHold, Tally, KeyOf;
    forall e | e in logs ensures KeyOf(d, e.log) in keys {
      EveryKeyIsListed(m, logs, d, e);
    }
    KeysPartitionTheLogs(logs, Ever, d, keys);
    SumsOfGroups(m, logs, Ever, d, keys, |keys|);
  }

  function SumListedRequests(list: seq<Listing>, k: nat): int
    requires k <= |list|
  {
    if k == 0 then 0 else SumListedRequests(list, k - 1) + list[k - 1].group.requests
  }

  function SumListedErrors(list: seq<Listing>, k: nat): int
    requires k <= |list|
  {
    if k == 0 then 0 else SumListedErrors(list, k - 1) + list[k - 1].group.errors
  }

  lemma {:induction false} ListSums(list: seq<Listing>, m: Groups, k: nat)
    requires ListsAll(list, m) && k <= |list|
    ensures SumListedRequests(list, k) == SumRequests(m, KeysOf(list), k)
    ensures SumListedErrors(list, k) == SumErrors(m, KeysOf(list), k)
  {
    if k > 0 {
      ListSums(list, m, k - 1);
    }
  }

  /** The models, the providers and the API keys of a dashboard each add up to its totals. */
  lemma ListsAddUpToTotals(out: Dashboard, logs: seq<Entry>, d: Dim)
    requires Summarizes(out, logs)
    ensures var list := Listed(out, d);
      && SumListedRequests(list, |list|) == out.totalRequests
      && out.errorRate == if out.totalRequests == 0 then 0.0
         else SumListedErrors(list, |list|) as real / out.totalRequests as real
  {
    var list := Listed(out, d);
    assert ListHolds(list, logs, d);
    var m :| ListsAll(list, m) && GroupsHold(m, logs, Ever, d);
    ListSums(list, m, |list|);
    forall key ensures key in KeysOf(list) <==> key in m {
      if key in KeysOf(list) {
        var i :| 0 <= i < |list| && KeysOf(list)[i] == key;
        assert list[i].key in m;
      }
    }
    hide GroupsHold, Tally, Listed, ListHolds;
    GroupsAddUp(m, logs, d, KeysOf(list));
  }
}
