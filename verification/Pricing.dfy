/** Cost of a request: internal/pricing/request_log.go, and the SQL expressions of
    internal/db/sqlite_stats.go read as functions of a row. */
module Pricing {
  import opened Prelude
  import opened Models

  datatype Breakdown = Breakdown(inputUSD: real, outputUSD: real, cachedReadUSD: real, totalUSD: real)

  const FREE := Breakdown(0.0, 0.0, 0.0, 0.0)

  const MILLION: real := 1000000.0

  /** A component with missing tokens or a missing rate costs nothing. */
  function ForRequestLog(log: Option<RequestLog>, pm: Option<ProviderModel>): Breakdown {
    if log.None? || pm.None? then FREE
    else
      var l, m := log.value, pm.value;
      var billed := if l.promptTokens.None? then 0
                    else if l.cachedTokens.Some? then l.promptTokens.value - l.cachedTokens.value
                    else l.promptTokens.value;
      var input := if l.promptTokens.Some? && m.inputRate.Some? && billed > 0
                   then billed as real / MILLION * m.inputRate.value else 0.0;
      var output := if l.completionTokens.Some? && m.outputRate.Some?
                    then l.completionTokens.value as real / MILLION * m.outputRate.value else 0.0;
      var cached := if l.cachedTokens.Some? && l.cachedTokens.value > 0 && m.cacheReadRate.Some?
                    then l.cachedTokens.value as real / MILLION * m.cacheReadRate.value else 0.0;
      Breakdown(input, output, cached, input + output + cached)
  }

  /** A log row with the rates joined to it: `pm` is None where the left join finds no model row. */
  datatype Row = Row(log: RequestLog, pm: Option<ProviderModel>)

  function Cost(r: Row): Breakdown {
    ForRequestLog(Some(r.log), r.pm)
  }

  /** Tokens cost their rate by the million: input is what the prompt has beyond the cached tokens, and neither it
      nor the cached tokens ever cost less than nothing. Without tokens, or without a rate, there is no cost. */
  lemma CostMeans(l: RequestLog, m: ProviderModel)
    ensures var c := ForRequestLog(Some(l), Some(m));
      var uncached := (if l.promptTokens.Some? then l.promptTokens.value else 0)
        - if l.cachedTokens.Some? then l.cachedTokens.value else 0;
      && c.inputUSD == (if l.promptTokens.None? || m.inputRate.None? || uncached <= 0 then 0.0
        else uncached as real / 1_000_000.0 * m.inputRate.value)
      && c.outputUSD == (if l.completionTokens.None? || m.outputRate.None? then 0.0
        else l.completionTokens.value as real / 1_000_000.0 * m.outputRate.value)
      && c.cachedReadUSD == (if l.cachedTokens.None? || m.cacheReadRate.None? || l.cachedTokens.value <= 0 then 0.0
        else l.cachedTokens.value as real / 1_000_000.0 * m.cacheReadRate.value)
      && c.totalUSD == c.inputUSD + c.outputUSD + c.cachedReadUSD
    ensures ForRequestLog(Some(l), None) == Breakdown(0.0, 0.0, 0.0, 0.0) == ForRequestLog(None, Some(m))
  {
  }

  // ----- the SQL expressions -----

  /** A column of the joined model row; NULL when the join or the column is. */
  function Column(pm: Option<ProviderModel>, rate: ProviderModel -> Option<real>): Option<real> {
    if pm.None? then None else rate(pm.value)
  }

  function SqlInputCase(r: Row): real {
    var rate := Column(r.pm, (m: ProviderModel) => m.inputRate);
    if rate.Some? && r.log.promptTokens.Some?
    then Max(0, r.log.promptTokens.value - OrZero(r.log.cachedTokens)) as real / MILLION * rate.value else 0.0
  }

  function SqlOutputCase(r: Row): real {
    var rate := Column(r.pm, (m: ProviderModel) => m.outputRate);
    if rate.Some? && r.log.completionTokens.Some?
    then r.log.completionTokens.value as real / MILLION * rate.value else 0.0
  }

  function SqlCachedCase(r: Row): real {
    var rate := Column(r.pm, (m: ProviderModel) => m.cacheReadRate);
    if rate.Some? && r.log.cachedTokens.Some? && r.log.cachedTokens.value > 0
    then r.log.cachedTokens.value as real / MILLION * rate.value else 0.0
  }

  /** SUM over the rows; NULL when there are none. */
  function SqlSum(rows: seq<Row>, f: Row -> real): Option<real> {
    if rows == [] then None
    else
      var rest := SqlSum(rows[..|rows| - 1], f);
      Some((if rest.Some? then rest.value else 0.0) + f(rows[|rows| - 1]))
  }

  function Coalesce(x: Option<real>, default: real): real {
    if x.Some? then x.value else default
  }

  function SqlInputCost(rows: seq<Row>): real { Coalesce(SqlSum(rows, SqlInputCase), 0.0) }

  function SqlOutputCost(rows: seq<Row>): real { Coalesce(SqlSum(rows, SqlOutputCase), 0.0) }

  function SqlCachedCost(rows: seq<Row>): real { Coalesce(SqlSum(rows, SqlCachedCase), 0.0) }

  /** The breakdowns added up one row after another, as the accumulator does. */
  function AddedUp(rows: seq<Row>): Breakdown {
    if rows == [] then FREE
    else
      var rest, c := AddedUp(rows[..|rows| - 1]), Cost(rows[|rows| - 1]);
      Breakdown(rest.inputUSD + c.inputUSD, rest.outputUSD + c.outputUSD,
        rest.cachedReadUSD + c.cachedReadUSD, rest.totalUSD + c.totalUSD)
  }

  lemma NothingBilled(rate: real)
    ensures 0 as real / MILLION * rate == 0.0
  {
  }

  lemma RowCostsAgree(r: Row)
    ensures Cost(r).inputUSD == SqlInputCase(r)
    ensures Cost(r).outputUSD == SqlOutputCase(r)
    ensures Cost(r).cachedReadUSD == SqlCachedCase(r)
  {
    if r.pm.Some? && r.pm.value.inputRate.Some? && r.log.promptTokens.Some? {
      var billed, rate := r.log.promptTokens.value - OrZero(r.log.cachedTokens), r.pm.value.inputRate.value;
      if billed > 0 {
        assert Cost(r).inputUSD == billed as real / MILLION * rate;
        assert SqlInputCase(r) == billed as real / MILLION * rate;
      } else {
        assert Cost(r).inputUSD == 0.0;
        NothingBilled(rate);
        assert SqlInputCase(r) == 0 as real / MILLION * rate;
      }
    }
  }

  /** The two ways of pricing a set of rows agree, whatever is missing in them. */
  lemma {:induction false} CostsAgree(rows: seq<Row>)
    ensures AddedUp(rows).inputUSD == SqlInputCost(rows)
    ensures AddedUp(rows).outputUSD == SqlOutputCost(rows)
    ensures AddedUp(rows).cachedReadUSD == SqlCachedCost(rows)
    ensures AddedUp(rows).totalUSD == SqlInputCost(rows) + SqlOutputCost(rows) + SqlCachedCost(rows)
  {
    if rows != [] {
      CostsAgree(rows[..|rows| - 1]);
      RowCostsAgree(rows[|rows| - 1]);
    }
  }

  // ----- input tokens -----

  /** What the accumulator adds for one row: never negative, nothing without prompt tokens. */
  function ClampedInput(l: RequestLog): int {
    if l.promptTokens.Some? then Max(0, l.promptTokens.value - OrZero(l.cachedTokens)) else 0
  }
}
