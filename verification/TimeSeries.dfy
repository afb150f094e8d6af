/** The usage chart: the query and gap-filling loop of internal/db/sqlite_stats.go. A bucket is numbered by
    the hours or days since the epoch; its text form is not part of this model. */
module TimeSeries {
  import opened Prelude
  import opened Models
  import opened Pricing
  import opened Tallies

  const DAY: int := 24 * HOUR

  datatype Granularity = Hourly | Daily

  datatype Point = Point(bucket: int, usage: Usage)

  function Parse(granularity: string): Option<Granularity> {
    if granularity == "hour" then Some(Hourly) else if granularity == "day" then Some(Daily) else None
  }

  function Step(g: Granularity): int {
    if g.Hourly? then HOUR else DAY
  }

  function BucketOf(g: Granularity, t: Time): int {
    if g.Hourly? then t / HOUR else t / DAY
  }

  /** Where bucket `b` begins. */
  function Start(g: Granularity, b: int): Time {
    if g.Hourly? then b * HOUR else b * DAY
  }

  function Starts(g: Granularity): int -> Time {
    b => Start(g, b)
  }

  function Min(a: int, b: int): int {
    if a < b then a else b
  }

  /** The part of [lo, hi) that lies in [since, before). */
  function Within(since: Time, before: Time, lo: Time, hi: Time): Span {
    Between(Max(since, lo), Min(before, hi))
  }

  /** The part of bucket `b` that lies in [since, before), for buckets that begin where `start` says. */
  function Cut(since: Time, before: Time, start: int -> Time, b: int): Span {
    Within(since, before, start(b), start(b + 1))
  }

  // ----- the chart -----

  function Count(since: Time, until: Time, g: Granularity): nat {
    Max(0, BucketOf(g, until) - BucketOf(g, since) + 1)
  }

  /** Totals as the query shows them: input tokens are not clamped row by row. */
  function Unclamped(u: Usage): Usage {
    u.(inputTokens := u.promptTokens - u.cachedTokens)
  }

  /** What the chart shows for the logs of a span. */
  function Shown(rows: seq<Entry>, span: Span, who: Who): Usage {
    Unclamped(Tally(rows, span, who).usage)
  }

  /** Whose logs a chart is about: everyone's, or those of one API key. */
  function Asked(apiKeyID: string): Who {
    if apiKeyID == "" then Everyone else Holder(ByAPIKey, apiKeyID)
  }

  function Filled(data: map<int, Usage>, b: int): Usage {
    if b in data then data[b] else ZERO
  }

  /** One point for every bucket from the first to the last, each the tally of the rows that fall in it. */
  function Series(rows: seq<Entry>, since: Time, until: Time, g: Granularity, who: Who): seq<Point> {
    Points(rows, since, until + 1, Starts(g), BucketOf(g, since), Count(since, until, g), who)
  }

  function Points(rows: seq<Entry>, since: Time, before: Time, start: int -> Time, b: int, n: nat, who: Who): seq<Point> {
    seq(n, i => Point(b + i, Shown(rows, Cut(since, before, start, b + i), who)))
  }

  method FillGaps(since: Time, until: Time, g: Granularity, data: map<int, Usage>) returns (points: seq<Point>)
    ensures |points| == Count(since, until, g)
    ensures forall i :: 0 <= i < |points| ==>
      points[i] == Point(BucketOf(g, since) + i, Filled(data, BucketOf(g, since) + i))
  {
    points := [];
    var t := Start(g, BucketOf(g, since));
    while t <= until
      invariant t == Start(g, BucketOf(g, since) + |points|)
      invariant |points| <= Count(since, until, g)
      invariant forall i :: 0 <= i < |points| ==>
        points[i] == Point(BucketOf(g, since) + i, Filled(data, BucketOf(g, since) + i))
      decreases until - t
    {
      var bucket := BucketOf(g, t);
      if bucket in data {
        points := points + [Point(bucket, data[bucket])];
      } else {
        points := points + [Point(bucket, ZERO)];
      }
      t := t + Step(g);
    }
  }

  // ----- nothing is lost, nothing is counted twice -----

  predicate Grows(start: int -> Time, b: int) {
    start(b) <= start(b + 1)
  }

  lemma {:induction false} LaterStart(start: int -> Time, b: int, k: nat)
    requires forall c :: Grows(start, c)
    ensures start(b) <= start(b + k)
  {
    if k > 0 {
      LaterStart(start, b, k - 1);
      assert Grows(start, b + k - 1);
    }
  }

  lemma UnclampedAdds(a: Totals, b: Totals)
    ensures Unclamped(Plus(a, b).usage) == AddUsage(Unclamped(a.usage), Unclamped(b.usage))
  {
  }

  lemma WithinAddsUp(rows: seq<Entry>, since: Time, before: Time, lo: Time, mid: Time, hi: Time, who: Who)
    requires lo <= mid <= hi
    ensures Shown(rows, Within(since, before, lo, hi), who)
      == AddUsage(Shown(rows, Within(since, before, lo, mid), who), Shown(rows, Within(since, before, mid, hi), who))
  {
    var whole, left, right := Within(since, before, lo, hi), Within(since, before, lo, mid), Within(since, before, mid, hi);
    forall t ensures Splits(whole, left, right, t) {
    }
    TallySplit(rows, whole, left, right, who);
    UnclampedAdds(Tally(rows, left, who), Tally(rows, right, who));
  }

  lemma StretchGrows(rows: seq<Entry>, since: Time, before: Time, start: int -> Time, b: int, k: nat, who: Who)
    requires forall c :: Grows(start, c)
    ensures Shown(rows, Within(since, before, start(b), start(b + k + 1)), who)
      == AddUsage(Shown(rows, Within(since, before, start(b), start(b + k)), who),
                  Shown(rows, Cut(since, before, start, b + k), who))
  {
    LaterStart(start, b, k);
    assert Grows(start, b + k);
    WithinAddsUp(rows, since, before, start(b), start(b + k), start(b + k + 1), who);
  }

  function SumPoints(points: seq<Point>, k: nat): Usage
    requires k <= |points|
  {
    if k == 0 then ZERO else AddUsage(SumPoints(points, k - 1), points[k - 1].usage)
  }

  /** The points of a row of buckets add up to the stretch they cover. */
  lemma {:induction false} PointsAddUp(rows: seq<Entry>, since: Time, before: Time, start: int -> Time, b: int, n: nat,
      k: nat, who: Who)
    requires (forall c :: Grows(start, c)) && k <= n
    ensures SumPoints(Points(rows, since, before, start, b, n, who), k)
      == Shown(rows, Within(since, before, start(b), start(b + k)), who)
    decreases k
  {
    hide Tally, AddUsage, Unclamped;
    if k == 0 {
      TallyNone(rows, Within(since, before, start(b), start(b)), who);
      assert Unclamped(NOTHING.usage) == ZERO by {
        UnclampedZero();
      }
    } else {
      var j := k - 1;
      PointsAddUp(rows, since, before, start, b, n, j, who);
      StretchGrows(rows, since, before, start, b, j, who);
    }
  }

  lemma UnclampedZero()
    ensures Unclamped(ZERO) == ZERO
  {
  }

  /** The points of a chart add up to the rows of its window. */
  lemma GapFillingConserves(rows: seq<Entry>, since: Time, until: Time, g: Granularity, who: Who)
    ensures var points := Series(rows, since, until, g, who);
      SumPoints(points, |points|) == Shown(rows, Between(since, until + 1), who)
  {
    hide Tally, AddUsage, Unclamped;
    StartsGrow(g);
    var n := Count(since, until, g);
    PointsAddUp(rows, since, until + 1, Starts(g), BucketOf(g, since), n, n, who);
    WindowIsCovered(since, until, g);
    TallySame(rows, Between(since, until + 1),
      Within(since, until + 1, Starts(g)(BucketOf(g, since)), Starts(g)(BucketOf(g, since) + n)), who);
  }

  lemma StartsGrow(g: Granularity)
    ensures forall c :: Grows(Starts(g), c)
  {
  }

  lemma WindowIsCovered(since: Time, until: Time, g: Granularity)
    ensures Starts(g)(BucketOf(g, since)) <= since
    ensures since < until + 1 ==> until + 1 <= Starts(g)(BucketOf(g, since) + Count(since, until, g))
  {
  }

  /** Every time of the window is drawn in one point, that of its own bucket, and in no other. */
  lemma EveryRowHasItsPoint(since: Time, until: Time, g: Granularity, t: Time, b: int)
    requires since <= t <= until
    ensures 0 <= BucketOf(g, t) - BucketOf(g, since) < Count(since, until, g)
    ensures Covers(Cut(since, until + 1, Starts(g), b), t) <==> b == BucketOf(g, t)
  {
  }

  /** A day's point is the sum of its 24 hours' points, whatever part of the day the window takes in. */
  lemma DayIsItsHours(rows: seq<Entry>, since: Time, before: Time, day: int, who: Who)
    ensures Shown(rows, Cut(since, before, Starts(Daily), day), who)
      == SumPoints(Points(rows, since, before, Starts(Hourly), 24 * day, 24, who), 24)
  {
    hide Tally, AddUsage, Unclamped;
    StartsGrow(Hourly);
    DayBeginsAnHour(day);
    DayBeginsAnHour(day + 1);
    PointsAddUp(rows, since, before, Starts(Hourly), 24 * day, 24, 24, who);
  }

  lemma DayBeginsAnHour(day: int)
    ensures Starts(Daily)(day) == Starts(Hourly)(24 * day)
  {
  }

  // ----- input tokens -----

  predicate CachedWithinPrompt(r: Entry) {
    OrZero(r.log.cachedTokens) <= OrZero(r.log.promptTokens)
  }

  /** By how much clamping one log raises the input tokens. */
  function ClampedAway(r: Entry): int {
    if r.log.promptTokens.None? then OrZero(r.log.cachedTokens)
    else Max(0, OrZero(r.log.cachedTokens) - r.log.promptTokens.value)
  }

  function ClampedAwayIn(rows: seq<Entry>, span: Span, who: Who): int {
    if rows == [] then 0
    else
      var rest, r := ClampedAwayIn(rows[..|rows| - 1], span, who), rows[|rows| - 1];
      if Selects(span, who, r) then rest + ClampedAway(r) else rest
  }

  lemma {:induction false} ClampingAddsUp(rows: seq<Entry>, span: Span, who: Who)
    ensures var u := Tally(rows, span, who).usage;
      u.inputTokens - (u.promptTokens - u.cachedTokens) == ClampedAwayIn(rows, span, who)
  {
    if rows != [] {
      ClampingAddsUp(rows[..|rows| - 1], span, who);
    }
  }

  lemma {:induction false} ClampedAwayIsNothing(rows: seq<Entry>, span: Span, who: Who)
    requires forall r :: r in rows && r.log.promptTokens.None? ==> OrZero(r.log.cachedTokens) >= 0
    ensures var n := ClampedAwayIn(rows, span, who);
      n >= 0 && (n == 0 <==> forall r :: r in rows && Selects(span, who, r) ==> CachedWithinPrompt(r))
  {
    if rows != [] {
      var init, r := rows[..|rows| - 1], rows[|rows| - 1];
      ClampedAwayIsNothing(init, span, who);
      assert forall x :: x in rows <==> x in init || x == r;
    }
  }

  /** The query shows less input than the accumulator adds up by exactly what clamping takes away log by log. So
      unless a log reports negative cached tokens and no prompt, it never shows more, and shows the same exactly
      when no log has more cached than prompt tokens. */
  lemma InputTokensAgreeExactly(rows: seq<Entry>, span: Span, who: Who)
    ensures var u := Tally(rows, span, who).usage;
      && Unclamped(u) == u.(inputTokens := u.inputTokens - ClampedAwayIn(rows, span, who))
      && (Unclamped(u) == u <==> ClampedAwayIn(rows, span, who) == 0)
      && ((forall r :: r in rows && r.log.promptTokens.None? ==> OrZero(r.log.cachedTokens) >= 0) ==>
            && Unclamped(u).inputTokens <= u.inputTokens
            && (Unclamped(u) == u <==> forall r :: r in rows && Selects(span, who, r) ==> CachedWithinPrompt(r)))
  {
    ClampingAddsUp(rows, span, who);
    if forall r :: r in rows && r.log.promptTokens.None? ==> OrZero(r.log.cachedTokens) >= 0 {
      ClampedAwayIsNothing(rows, span, who);
    }
  }

  // ----- the query -----

  function SumOf(rows: seq<Row>, f: Row -> int): int {
    if rows == [] then 0 else SumOf(rows[..|rows| - 1], f) + f(rows[|rows| - 1])
  }

  /** The three cost expressions that the query is put together from. */
  datatype CostExprs = CostExprs(input: Row -> real, output: Row -> real, cached: Row -> real)

  function Expressions(): CostExprs {
    CostExprs(SqlInputCase, SqlOutputCase, SqlCachedCase)
  }

  /** The row the query returns for one group. Its input tokens are a difference of two sums. */
  function SqlUsage(rows: seq<Row>, x: CostExprs): Usage {
    var prompt, cached :=
      SumOf(rows, (r: Row) => OrZero(r.log.promptTokens)), SumOf(rows, (r: Row) => OrZero(r.log.cachedTokens));
    var inputCost, outputCost, cachedCost :=
      Coalesce(SqlSum(rows, x.input), 0.0), Coalesce(SqlSum(rows, x.output), 0.0), Coalesce(SqlSum(rows, x.cached), 0.0);
    Usage(|rows|, SumOf(rows, (r: Row) => if Succeeded(r.log) then 1 else 0),
      SumOf(rows, (r: Row) => if Failed(r.log) then 1 else 0), prompt - cached, prompt,
      SumOf(rows, (r: Row) => OrZero(r.log.completionTokens)), SumOf(rows, (r: Row) => OrZero(r.log.totalTokens)), cached,
      inputCost + outputCost + cachedCost, inputCost, outputCost, cachedCost)
  }

  /** The rows with their costs worked out. */
  function Priced(rows: seq<Row>): seq<Entry> {
    seq(|rows|, i requires 0 <= i < |rows| => Entry(rows[i].log, Cost(rows[i])))
  }

  /** The same with the query's expressions. */
  function PricedBy(rows: seq<Row>, x: CostExprs): seq<Entry> {
    seq(|rows|, i requires 0 <= i < |rows| => EntryBy(rows[i], x))
  }

  function EntryBy(r: Row, x: CostExprs): Entry {
    Entry(r.log, Breakdown(x.input(r), x.output(r), x.cached(r), x.input(r) + x.output(r) + x.cached(r)))
  }

  /** The WHERE clause: the window, and one API key if any is given. */
  predicate InQuery(since: Time, until: Time, apiKeyID: string, r: Row) {
    since <= r.log.timestamp <= until && (apiKeyID == "" || r.log.apiKeyID == apiKeyID)
  }

  predicate InGroup(since: Time, until: Time, apiKeyID: string, g: Granularity, b: int, r: Row) {
    InQuery(since, until, apiKeyID, r) && BucketOf(g, r.log.timestamp) == b
  }

  function Where(rows: seq<Row>, p: Row -> bool): seq<Row> {
    if rows == [] then []
    else
      var rest, r := Where(rows[..|rows| - 1], p), rows[|rows| - 1];
      if p(r) then rest + [r] else rest
  }

  function QueryBuckets(rows: seq<Row>, since: Time, until: Time, apiKeyID: string, g: Granularity, x: CostExprs):
    map<int, Usage>
  {
    var buckets := set r | r in rows && InQuery(since, until, apiKeyID, r) :: BucketOf(g, r.log.timestamp);
    map b | b in buckets :: SqlUsage(Where(rows, r => InGroup(since, until, apiKeyID, g, b, r)), x)
  }

  method TimeSeries(rows: seq<Row>, since: Time, until: Time, granularity: string, apiKeyID: string)
    returns (series: Option<seq<Point>>)
    ensures series.None? <==> granularity != "hour" && granularity != "day"
    ensures series.Some? ==>
      series.value == Series(Priced(rows), since, until, Parse(granularity).value, Asked(apiKeyID))
  {
    var g := Parse(granularity);
    if g.None? {
      return None;
    }
    var points := Chart(rows, since, until, g.value, apiKeyID);
    return Some(points);
  }

  method Chart(rows: seq<Row>, since: Time, until: Time, g: Granularity, apiKeyID: string) returns (points: seq<Point>)
    ensures points == Series(Priced(rows), since, until, g, Asked(apiKeyID))
  {
    var data := QueryBuckets(rows, since, until, apiKeyID, g, Expressions());
    points := FillGaps(since, until, g, data);
    QueryFillsSeries(rows, since, until, apiKeyID, g, points);
  }

  lemma SqlUsageSnoc(rows: seq<Row>, r: Row, x: CostExprs)
    ensures SqlUsage(rows + [r], x) == AddUsage(SqlUsage(rows, x), Unclamped(Of(EntryBy(r, x)).usage))
  {
    assert (rows + [r])[..|rows|] == rows;
  }

  lemma ShownSnoc(rows: seq<Row>, r: Row, x: CostExprs, span: Span, who: Who)
    ensures Shown(PricedBy(rows + [r], x), span, who)
      == if Selects(span, who, EntryBy(r, x))
         then AddUsage(Shown(PricedBy(rows, x), span, who), Unclamped(Of(EntryBy(r, x)).usage))
         else Shown(PricedBy(rows, x), span, who)
  {
    assert PricedBy(rows + [r], x) == PricedBy(rows, x) + [EntryBy(r, x)];
    TallySnoc(PricedBy(rows, x), EntryBy(r, x), span, who);
    UnclampedAdds(Tally(PricedBy(rows, x), span, who), Of(EntryBy(r, x)));
  }

  /** The query's columns for the rows that a condition selects are their tally. */
  lemma {:induction false} GroupIsTally(rows: seq<Row>, p: Row -> bool, x: CostExprs, span: Span, who: Who)
    requires forall r :: r in rows ==> (p(r) <==> Selects(span, who, EntryBy(r, x)))
    ensures SqlUsage(Where(rows, p), x) == Shown(PricedBy(rows, x), span, who)
  {
    hide SqlUsage, Tally, AddUsage, Unclamped, Shown, Of, EntryBy, PricedBy;
    if rows == [] {
      NoRows(x, span, who);
    } else {
      var init, r := rows[..|rows| - 1], rows[|rows| - 1];
      assert rows == init + [r];
      ShownSnoc(init, r, x, span, who);
      GroupIsTally(init, p, x, span, who);
      SqlUsageSnoc(Where(init, p), r, x);
    }
  }

  lemma NoRows(x: CostExprs, span: Span, who: Who)
    ensures SqlUsage([], x) == ZERO == Shown(PricedBy([], x), span, who)
  {
    assert PricedBy([], x) == [];
  }

  lemma GroupIsSelected(since: Time, until: Time, apiKeyID: string, g: Granularity, b: int, r: Row, x: CostExprs)
    ensures InGroup(since, until, apiKeyID, g, b, r)
      <==> Selects(Cut(since, until + 1, Starts(g), b), Asked(apiKeyID), EntryBy(r, x))
  {
  }

  /** What the chart shows for a bucket, whether the query returned it or not. */
  lemma QueryIsTally(rows: seq<Row>, since: Time, until: Time, apiKeyID: string, g: Granularity, b: int, x: CostExprs)
    ensures Filled(QueryBuckets(rows, since, until, apiKeyID, g, x), b)
      == Shown(PricedBy(rows, x), Cut(since, until + 1, Starts(g), b), Asked(apiKeyID))
  {
    hide Shown, Cut, Asked, Selects, PricedBy, EntryBy, SqlUsage, Where;
    var span, who := Cut(since, until + 1, Starts(g), b), Asked(apiKeyID);
    forall r: Row ensures InGroup(since, until, apiKeyID, g, b, r) <==> Selects(span, who, EntryBy(r, x)) {
      GroupIsSelected(since, until, apiKeyID, g, b, r, x);
    }
    if b in QueryBuckets(rows, since, until, apiKeyID, g, x) {
      GroupIsTally(rows, r => InGroup(since, until, apiKeyID, g, b, r), x, span, who);
    } else {
      NoGroupNoTally(rows, x, span, who);
    }
  }

  lemma NoGroupNoTally(rows: seq<Row>, x: CostExprs, span: Span, who: Who)
    requires forall r :: r in rows ==> !Selects(span, who, EntryBy(r, x))
    ensures Shown(PricedBy(rows, x), span, who) == ZERO
  {
    forall e | e in PricedBy(rows, x) ensures !Selects(span, who, e) {
      var i :| 0 <= i < |rows| && e == PricedBy(rows, x)[i];
      assert rows[i] in rows;
    }
    TallyNone(PricedBy(rows, x), span, who);
  }

  /** The query's expressions price a row as ForRequestLog does. */
  lemma PricedAlike(rows: seq<Row>)
    ensures PricedBy(rows, Expressions()) == Priced(rows)
  {
    forall i | 0 <= i < |rows| ensures EntryBy(rows[i], Expressions()) == Priced(rows)[i] {
      RowCostsAgree(rows[i]);
    }
  }

  lemma QueryFillsSeries(rows: seq<Row>, since: Time, until: Time, apiKeyID: string, g: Granularity, points: seq<Point>)
    requires |points| == Count(since, until, g)
    requires forall i :: 0 <= i < |points| ==> points[i] == Point(BucketOf(g, since) + i,
      Filled(QueryBuckets(rows, since, until, apiKeyID, g, Expressions()), BucketOf(g, since) + i))
    ensures points == Series(Priced(rows), since, until, g, Asked(apiKeyID))
  {
    hide QueryBuckets, Shown, Filled, Priced, PricedBy, BucketOf, Count, Cut, Asked;
    PricedAlike(rows);
    var x := Expressions();
    forall i | 0 <= i < |points|
      ensures points[i] == Series(PricedBy(rows, x), since, until, g, Asked(apiKeyID))[i]
    {
      QueryIsTally(rows, since, until, apiKeyID, g, BucketOf(g, since) + i, x);
    }
  }
}
