/** The retry loops of internal/proxy/handler.go, with a backend attempt reduced to its outcome. What a
    loop does to the outside is recorded as a trace of effects. */
module Failover {
  import opened Prelude

  /** A provider by its id. */
  type ProviderID = string

  /** How one attempt ends: no route, a request that cannot be built, a client that went away while the
      request was sent or its response read, a transport error, a response body that cannot be read,
      or a response with a status code. */
  datatype Attempt =
    | NoRoute
    | BuildError(p: ProviderID)
    | Canceled(p: ProviderID)
    | TransportError(p: ProviderID)
    | ReadError(p: ProviderID)
    | Status(p: ProviderID, code: int)

  datatype Effect =
    | Send(p: ProviderID)
    | ReportFailure(p: ProviderID)
    | ReportSuccess(p: ProviderID)
    | Record(status: int)
    | Respond(status: int)

  datatype Report = Report(p: ProviderID, success: bool)

  /** The effects of a trace sorted by kind, each kind in order. */
  datatype Ledger = Ledger(sends: seq<ProviderID>, reports: seq<Report>, records: seq<int>, responses: seq<int>)

  function Post(l: Ledger, e: Effect): Ledger {
    match e
    case Send(p) => l.(sends := l.sends + [p])
    case ReportFailure(p) => l.(reports := l.reports + [Report(p, false)])
    case ReportSuccess(p) => l.(reports := l.reports + [Report(p, true)])
    case Record(status) => l.(records := l.records + [status])
    case Respond(status) => l.(responses := l.responses + [status])
  }

  /** What has been done so far, latest effect outermost. */
  datatype Trace = Start | Then(before: Trace, e: Effect)

  function LedgerOf(trace: Trace): Ledger {
    match trace
    case Start => Ledger([], [], [], [])
    case Then(before, e) => Post(LedgerOf(before), e)
  }

  function LatestSend(trace: Trace): seq<ProviderID> {
    match trace
    case Start => []
    case Then(_, Send(p)) => [p]
    case Then(before, _) => LatestSend(before)
  }

  /** Every report names the provider of the latest send before it, and nothing is sent once the request has been
      answered or recorded. */
  predicate Orderly(trace: Trace) {
    match trace
    case Start => true
    case Then(before, Send(_)) => Orderly(before) && LedgerOf(before).responses == [] && LedgerOf(before).records == []
    case Then(before, ReportFailure(p)) => Orderly(before) && LatestSend(before) == [p]
    case Then(before, ReportSuccess(p)) => Orderly(before) && LatestSend(before) == [p]
    case Then(before, _) => Orderly(before)
  }

  lemma OrderlySend(trace: Trace, p: ProviderID)
    requires Orderly(trace) && LedgerOf(trace).responses == [] && LedgerOf(trace).records == []
    ensures Orderly(Then(trace, Send(p))) && LatestSend(Then(trace, Send(p))) == [p]
  {
  }

  lemma OrderlyReport(trace: Trace, p: ProviderID)
    requires Orderly(trace) && LatestSend(trace) == [p]
    ensures Orderly(Then(trace, ReportFailure(p))) && Orderly(Then(trace, ReportSuccess(p)))
  {
  }

  lemma OrderlyRecord(trace: Trace, status: int)
    requires Orderly(trace)
    ensures Orderly(Then(trace, Record(status)))
  {
  }

  predicate Success(code: int) {
    200 <= code < 300
  }

  /** The outcomes that end the loop before its last attempt. */
  predicate Settles(a: Attempt) {
    a.Canceled? || (a.Status? && a.code < 500)
  }

  predicate Fails(a: Attempt) {
    a.TransportError? || a.ReadError? || (a.Status? && a.code >= 500)
  }

  predicate Sends(a: Attempt) {
    !a.NoRoute? && !a.BuildError?
  }

  /** How many of the outcomes in store are actually met, looking from position `i`. */
  function Executed(env: seq<Attempt>, i: nat): (k: nat)
    requires i < |env|
    ensures i < k <= |env|
    decreases |env| - i
  {
    if Settles(env[i]) || i == |env| - 1 then i + 1 else Executed(env, i + 1)
  }

  lemma ExecutedStep(env: seq<Attempt>, i: nat)
    requires i < |env|
    ensures Settles(env[i]) || i == |env| - 1 ==> Executed(env, i) == i + 1
    ensures !Settles(env[i]) && i < |env| - 1 ==> Executed(env, i) == Executed(env, i + 1)
  {
  }

  /** The providers the first `k` attempts were sent to. */
  function SendsOf(env: seq<Attempt>, k: nat): (r: seq<ProviderID>)
    requires k <= |env|
    ensures |r| <= k
  {
    if k == 0 then []
    else if Sends(env[k - 1]) then SendsOf(env, k - 1) + [env[k - 1].p]
    else SendsOf(env, k - 1)
  }

  /** One failure report for each failed attempt among the first `k`. */
  function FailureReports(env: seq<Attempt>, k: nat): seq<Report>
    requires k <= |env|
  {
    if k == 0 then []
    else if Fails(env[k - 1]) then FailureReports(env, k - 1) + [Report(env[k - 1].p, false)]
    else FailureReports(env, k - 1)
  }

  function FinalStatus(a: Attempt): int {
    match a
    case NoRoute => 503
    case BuildError(_) => 500
    case Canceled(_) => 499
    case TransportError(_) => 502
    case ReadError(_) => 502
    case Status(_, code) => code
  }

  /** The ledger after `k` attempts, before anything is recorded or answered. */
  function Unsettled(env: seq<Attempt>, k: nat): Ledger
    requires k <= |env|
  {
    Ledger(SendsOf(env, k), FailureReports(env, k), [], [])
  }

  function Met(l: Ledger, a: Attempt): Ledger {
    var sent := if Sends(a) then Post(l, Send(a.p)) else l;
    if Fails(a) then Post(sent, ReportFailure(a.p)) else sent
  }

  lemma UnsettledGrows(env: seq<Attempt>, k: nat)
    requires 0 < k <= |env|
    ensures Unsettled(env, k) == Met(Unsettled(env, k - 1), env[k - 1])
  {
  }

  function Settled(l: Ledger, last: Attempt): Ledger {
    Ledger(
      l.sends,
      if last.Status? && Success(last.code) then l.reports + [Report(last.p, true)] else l.reports,
      [FinalStatus(last)],
      if last.Canceled? then [] else [FinalStatus(last)])
  }

  /** The accounting of one request: `k` attempts were made, the `k`-th was the last. */
  function Account(env: seq<Attempt>, k: nat): Ledger
    requires 0 < k <= |env|
  {
    Settled(Unsettled(env, k), env[k - 1])
  }

  /** proxyNonStreaming, and the multipart loop of HandleAudioTranscriptions. For every number of
      attempts and every sequence of outcomes: one send per attempt that gets that far, one failure
      report per failed attempt and at most one success report, which comes last; one metrics record;
      one response, or none when the client has gone. The end of the loop is never reached. */
  method ProxyNonStreaming(maxAttempts: nat, env: seq<Attempt>) returns (trace: Trace)
    requires maxAttempts >= 1 && |env| == maxAttempts
    ensures LedgerOf(trace) == Account(env, Executed(env, 0)) && Orderly(trace)
  {
    trace := Start;
    assert Unsettled(env, 0) == LedgerOf(trace) && Orderly(trace);
    hide Orderly, LatestSend, SendsOf, FailureReports;
    var attempt := 1;
    while attempt <= maxAttempts
      invariant 1 <= attempt <= maxAttempts
      invariant Executed(env, attempt - 1) == Executed(env, 0)
      invariant LedgerOf(trace) == Unsettled(env, attempt - 1) && Orderly(trace)
    {
      var outcome := env[attempt - 1];
      UnsettledGrows(env, attempt);
      if Sends(outcome) {
        OrderlySend(trace, outcome.p);
        trace := Then(trace, Send(outcome.p));
      }
      match outcome {
        case NoRoute | BuildError(_) =>
          if attempt == maxAttempts {
            trace := Finish(trace, FinalStatus(outcome), false);
            return;
          }
        case Canceled(_) =>
          OrderlyRecord(trace, 499);
          trace := Then(trace, Record(499));
          return;
        case TransportError(p) =>
          OrderlyReport(trace, p);
          trace := Then(trace, ReportFailure(p));
          if attempt == maxAttempts {
            trace := Finish(trace, 502, false);
            return;
          }
        case ReadError(p) =>
          OrderlyReport(trace, p);
          trace := Then(trace, ReportFailure(p));
          if attempt == maxAttempts {
            trace := Finish(trace, 502, false);
            return;
          }
        case Status(p, code) =>
          if code >= 500 {
            OrderlyReport(trace, p);
            trace := Then(trace, ReportFailure(p));
            if attempt == maxAttempts {
              trace := Finish(trace, code, true);
              return;
            }
          } else {
            if Success(code) {
              OrderlyReport(trace, p);
              trace := Then(trace, ReportSuccess(p));
            }
            trace := Finish(trace, code, true);
            return;
          }
      }
      attempt := attempt + 1;
    }
    assert false;
  }

  /** One record and one response; a backend response is written before it is recorded. */
  method Finish(trace: Trace, status: int, respondFirst: bool) returns (longer: Trace)
    requires Orderly(trace)
    ensures Orderly(longer)
    ensures var l := LedgerOf(trace);
      LedgerOf(longer) == l.(records := l.records + [status], responses := l.responses + [status])
  {
    if respondFirst {
      longer := Then(trace, Respond(status));
      longer := Then(longer, Record(status));
    } else {
      longer := Then(trace, Record(status));
      longer := Then(longer, Respond(status));
    }
  }

  // ----- what the accounting amounts to -----

  function CountFailed(env: seq<Attempt>, k: nat): nat
    requires k <= |env|
  {
    if k == 0 then 0 else CountFailed(env, k - 1) + if Fails(env[k - 1]) then 1 else 0
  }

  lemma {:induction false} FailureReportsAreCounted(env: seq<Attempt>, k: nat)
    requires k <= |env|
    ensures |FailureReports(env, k)| == CountFailed(env, k) <= k
    ensures forall i :: 0 <= i < |FailureReports(env, k)| ==> !FailureReports(env, k)[i].success
  {
    if k > 0 {
      FailureReportsAreCounted(env, k - 1);
    }
  }

  /** The loop stops at the first attempt whose client went away or whose backend answered below 500, or when
      attempts run out. */
  lemma {:induction false} StopsAtFirstSettlement(env: seq<Attempt>, i: nat)
    requires i < |env|
    ensures var k := Executed(env, i);
      && (forall j :: i <= j < k - 1 ==> !env[j].Canceled? && (env[j].Status? ==> env[j].code >= 500))
      && (k == |env| || env[k - 1].Canceled? || (env[k - 1].Status? && env[k - 1].code < 500))
    decreases |env| - i
  {
    if !Settles(env[i]) && i < |env| - 1 {
      StopsAtFirstSettlement(env, i + 1);
    }
  }

  /** The attempts of `at`, in order, are those of the first `k` that reached a backend, and `providers` names theirs. */
  ghost predicate NamesOf(env: seq<Attempt>, k: nat, at: seq<nat>, providers: seq<ProviderID>) {
    && |at| == |providers| && Rising(at, k) && k <= |env|
    && (forall i :: 0 <= i < |at| ==> !env[at[i]].NoRoute? && providers[i] == env[at[i]].p)
  }

  lemma OneMoreName(env: seq<Attempt>, k: nat, at: seq<nat>, providers: seq<ProviderID>)
    requires k < |env| && NamesOf(env, k, at, providers) && !env[k].NoRoute?
    ensures NamesOf(env, k + 1, at + [k], providers + [env[k].p])
  {
  }

  /** Which provider each send names: that of one attempt that was neither without a route nor without a request,
      each such attempt once and in order. */
  lemma {:induction false} SendsNameTheirAttempts(env: seq<Attempt>, k: nat) returns (at: seq<nat>)
    requires k <= |env|
    ensures NamesOf(env, k, at, SendsOf(env, k))
    ensures forall n :: 0 <= n < k ==> (n in at <==> !env[n].NoRoute? && !env[n].BuildError?)
  {
    at := [];
    if k > 0 {
      at := SendsNameTheirAttempts(env, k - 1);
      if Sends(env[k - 1]) {
        OneMoreName(env, k - 1, at, SendsOf(env, k - 1));
        at := at + [k - 1];
      }
    }
  }

  function Named(reports: seq<Report>): (r: seq<ProviderID>)
    ensures |r| == |reports| && forall i :: 0 <= i < |r| ==> r[i] == reports[i].p
  {
    seq(|reports|, i requires 0 <= i < |reports| => reports[i].p)
  }

  /** And each failure report that of one attempt that broke off, could not be read or was answered by 500 or more. */
  lemma {:induction false} ReportsNameTheirAttempts(env: seq<Attempt>, k: nat) returns (at: seq<nat>)
    requires k <= |env|
    ensures NamesOf(env, k, at, Named(FailureReports(env, k)))
    ensures forall n :: 0 <= n < k ==>
      (n in at <==> env[n].TransportError? || env[n].ReadError? || (env[n].Status? && env[n].code >= 500))
  {
    at := [];
    if k > 0 {
      at := ReportsNameTheirAttempts(env, k - 1);
      if Fails(env[k - 1]) {
        OneMoreName(env, k - 1, at, Named(FailureReports(env, k - 1)));
        assert Named(FailureReports(env, k)) == Named(FailureReports(env, k - 1)) + [env[k - 1].p];
        at := at + [k - 1];
      }
    }
  }

  /** Read off any trace that accounts for its request: every report but the last is a failure; the last is a
      success exactly when the request ended in a 2xx, and names the provider that gave it; a request that
      ended in a 4xx or with the client gone adds no report of its own. The one record and the one response
      carry the backend's own status, or 503 without a route, 500 without a request, 502 for a backend that
      could not be reached or read; a client that has gone is recorded as 499 and answered nothing. */
  lemma RetryAccounting(env: seq<Attempt>)
    requires env != []
    ensures var k := Executed(env, 0);
      var last, l := env[k - 1], Account(env, k);
      && l.sends == SendsOf(env, k)
      && (if last.Status? && 200 <= last.code < 300
          then l.reports == FailureReports(env, k) + [Report(last.p, true)]
          else l.reports == FailureReports(env, k))
      && (forall i :: 0 <= i < |l.reports| - 1 ==> !l.reports[i].success)
      && (l.reports != [] && l.reports[|l.reports| - 1].success <==> last.Status? && 200 <= last.code < 300)
      && (last.Canceled? || (last.Status? && last.code < 500) ==> FailureReports(env, k) == FailureReports(env, k - 1))
      && match last {
        case Status(_, code) => l.records == [code] && l.responses == [code]
        case NoRoute => l.records == [503] && l.responses == [503]
        case BuildError(_) => l.records == [500] && l.responses == [500]
        case TransportError(_) => l.records == [502] && l.responses == [502]
        case ReadError(_) => l.records == [502] && l.responses == [502]
        case Canceled(_) => l.records == [499] && l.responses == []
      }
  {
    FailureReportsAreCounted(env, Executed(env, 0));
  }

  // ----- streaming -----

  /** How a started stream ends: to the end, the client gone, or broken off. */
  datatype StreamEnd = Completed | ClientGone | Broken

  function StreamStatus(a: Attempt, end: StreamEnd): int {
    if Streams(a) then (if end.Completed? then a.code else 200)
    else if a.Status? then 503
    else FinalStatus(a)
  }

  predicate Streams(a: Attempt) {
    a.Status? && a.code < 500
  }

  function StreamSettled(l: Ledger, last: Attempt, end: StreamEnd): Ledger {
    Ledger(
      l.sends,
      if Streams(last) && !end.ClientGone? then l.reports + [Report(last.p, end.Completed?)] else l.reports,
      [StreamStatus(last, end)],
      if last.Canceled? then [] else [if Streams(last) then 200 else StreamStatus(last, end)])
  }

  /** As `Account`, for a streamed request. Once a backend has answered below 500 the client gets status
      200, and the report says how the stream ended, whatever the status: a 4xx response streamed to its
      end counts as a success here, unlike in the non-streaming loop. */
  function StreamAccount(env: seq<Attempt>, k: nat, end: StreamEnd): Ledger
    requires 0 < k <= |env|
  {
    StreamSettled(Unsettled(env, k), env[k - 1], end)
  }

  /** The same reading of a streamed request: a backend that answers below 500 starts a stream, which the client
      sees as 200 and which is recorded with the backend's status if it ran to its end and as 200 otherwise; it
      is reported a success if it ran to its end, a failure if it broke off, and not at all if the client left.
      Anything else ends as in the other loop, but for a 5xx, which becomes 503. */
  lemma StreamRetryAccounting(env: seq<Attempt>, end: StreamEnd)
    requires env != []
    ensures var k := Executed(env, 0);
      var last, l := env[k - 1], StreamAccount(env, k, end);
      && l.sends == SendsOf(env, k)
      && (forall i :: 0 <= i < |l.reports| - 1 ==> !l.reports[i].success)
      && match last {
        case Status(p, code) =>
          if code >= 500 then l.records == [503] && l.responses == [503] && l.reports == FailureReports(env, k)
          else
            && l.responses == [200]
            && match end {
              case Completed => l.records == [code] && l.reports == FailureReports(env, k) + [Report(p, true)]
              case Broken => l.records == [200] && l.reports == FailureReports(env, k) + [Report(p, false)]
              case ClientGone => l.records == [200] && l.reports == FailureReports(env, k)
            }
        case NoRoute => l.records == [503] && l.responses == [503] && l.reports == FailureReports(env, k)
        case BuildError(_) => l.records == [500] && l.responses == [500] && l.reports == FailureReports(env, k)
        case TransportError(_) => l.records == [502] && l.responses == [502] && l.reports == FailureReports(env, k)
        case ReadError(_) => l.records == [502] && l.responses == [502] && l.reports == FailureReports(env, k)
        case Canceled(_) => l.records == [499] && l.responses == [] && l.reports == FailureReports(env, k)
      }
  {
    FailureReportsAreCounted(env, Executed(env, 0));
  }

  /** Two requests that meet the same outcomes, one proxied whole and one streamed to its end, settled by an
      answer below 500: they report alike exactly when that answer is a success. Any other answer, a 4xx say,
      is no report in the one and a success in the other. */
  lemma OnlySuccessesReportAlike(env: seq<Attempt>)
    requires env != [] && env[Executed(env, 0) - 1].Status? && env[Executed(env, 0) - 1].code < 500
    ensures var k := Executed(env, 0);
      var last, whole, streamed := env[k - 1], Account(env, k).reports, StreamAccount(env, k, Completed).reports;
      && (whole == streamed <==> Success(last.code))
      && streamed == FailureReports(env, k) + [Report(last.p, true)]
      && (!Success(last.code) ==> whole == FailureReports(env, k))
  {
  }

  lemma UnsettledIsOpen(env: seq<Attempt>, k: nat)
    requires k < |env|
    ensures var l := Met(Unsettled(env, k), env[k]);
      l.records == [] && l.responses == []
    ensures Unsettled(env, k).records == [] && Unsettled(env, k).responses == []
  {
  }

  /** A last attempt that starts no stream: one record, and one response with the same status unless the client
      has gone. */
  lemma EndsWithoutStream(l: Ledger, last: Attempt, end: StreamEnd)
    requires !Streams(last) && l.records == [] && l.responses == []
    ensures var status := if last.Status? then 503 else FinalStatus(last);
      StreamSettled(l, last, end)
        == l.(records := l.records + [status],
              responses := if last.Canceled? then l.responses else l.responses + [status])
  {
  }

  /** handleStreamingRequest. The response body is not read inside the loop, so reading it cannot fail
      there; after the loop there always is a response. */
  method HandleStreamingRequest(maxAttempts: nat, env: seq<Attempt>, end: StreamEnd) returns (trace: Trace)
    requires maxAttempts >= 1 && |env| == maxAttempts
    requires forall i :: 0 <= i < |env| ==> !env[i].ReadError?
    ensures LedgerOf(trace) == StreamAccount(env, Executed(env, 0), end) && Orderly(trace)
  {
    trace := Start;
    var attempt := 1;
    assert Unsettled(env, 0) == LedgerOf(trace) && Orderly(trace);
    hide SendsOf, FailureReports, StreamSettled, StreamStatus, Unsettled, Executed, Orderly, LatestSend, Success;
    while attempt <= maxAttempts
      invariant 1 <= attempt <= maxAttempts
      invariant Executed(env, attempt - 1) == Executed(env, 0)
      invariant LedgerOf(trace) == Unsettled(env, attempt - 1) && Orderly(trace)
    {
      var outcome := env[attempt - 1];
      UnsettledGrows(env, attempt);
      ExecutedStep(env, attempt - 1);
      UnsettledIsOpen(env, attempt - 1);
      if Sends(outcome) {
        OrderlySend(trace, outcome.p);
        trace := Then(trace, Send(outcome.p));
      }
      match outcome {
        case NoRoute | BuildError(_) =>
          if attempt == maxAttempts {
            trace := Finish(trace, FinalStatus(outcome), false);
            EndsWithoutStream(Unsettled(env, attempt), outcome, end);
            return;
          }
        case Canceled(_) =>
          OrderlyRecord(trace, 499);
          trace := Then(trace, Record(499));
          EndsWithoutStream(Unsettled(env, attempt), outcome, end);
          return;
        case TransportError(p) =>
          OrderlyReport(trace, p);
          trace := Then(trace, ReportFailure(p));
          if attempt == maxAttempts {
            trace := Finish(trace, 502, false);
            EndsWithoutStream(Unsettled(env, attempt), outcome, end);
            return;
          }
        case ReadError(_) =>
          assert false;
        case Status(p, code) =>
          if code < 500 {
            assert LedgerOf(trace) == Unsettled(env, attempt);
            trace := FinishStream(trace, outcome, end);
            return;
          }
          OrderlyReport(trace, p);
          trace := Then(trace, ReportFailure(p));
          if attempt == maxAttempts {
            trace := Finish(trace, 503, false);
            EndsWithoutStream(Unsettled(env, attempt), outcome, end);
            return;
          }
      }
      attempt := attempt + 1;
    }
    assert false;
  }

  /** What follows the loop once a stream has begun. */
  method FinishStream(trace: Trace, last: Attempt, end: StreamEnd) returns (longer: Trace)
    requires Streams(last) && LedgerOf(trace).records == [] && LedgerOf(trace).responses == []
    requires Orderly(trace) && LatestSend(trace) == [last.p]
    ensures LedgerOf(longer) == StreamSettled(LedgerOf(trace), last, end) && Orderly(longer)
  {
    longer := Then(trace, Respond(200));
    ghost var answered := LedgerOf(longer);
    assert answered == LedgerOf(trace).(responses := [200]);
    match end {
      case Completed =>
        longer := Then(longer, ReportSuccess(last.p));
      case Broken =>
        longer := Then(longer, ReportFailure(last.p));
      case ClientGone =>
    }
    assert LedgerOf(longer).records == [] && LedgerOf(longer).responses == [200];
    var status := if end.Completed? then last.code else 200;
    longer := Then(longer, Record(status));
  }
}
