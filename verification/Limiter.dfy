/** Fixed-window rate limits per API key: KeyLimiter of internal/proxy/auth.go. */
module Limiter {
  import opened Prelude

  const MINUTE: int := 60_000_000_000

  /** A counter that restarts when a call finds it a minute old. `start` is None for Go's zero time,
      which lies more than a minute before every clock reading. */
  datatype Window = Window(start: Option<Time>, used: int)

  datatype Entry = Entry(rpm: Window, tpm: Window)

  datatype Limits = Limits(rpm: Option<int>, tpm: Option<int>)

  datatype Verdict = Allowed | RpmExceeded | TpmExceeded

  const EMPTY := Entry(Window(None, 0), Window(None, 0))

  predicate Expired(w: Window, now: Time) {
    w.start.None? || now - w.start.value >= MINUTE
  }

  function Charge(w: Window, now: Time, amount: int): Window {
    if Expired(w, now) then Window(Some(now), amount) else w.(used := w.used + amount)
  }

  /** A request is charged to the request window first; only if that admits it is it charged to the
      token window. Both charges stand even when the request is rejected. */
  function OnRequest(e: Entry, limits: Limits, now: Time, tokens: int): (Entry, Verdict) {
    var rpm := if limits.rpm.Some? then Charge(e.rpm, now, 1) else e.rpm;
    if limits.rpm.Some? && rpm.used > limits.rpm.value then (Entry(rpm, e.tpm), RpmExceeded)
    else
      var tpm := if limits.tpm.Some? then Charge(e.tpm, now, tokens) else e.tpm;
      (Entry(rpm, tpm), if limits.tpm.Some? && tpm.used > limits.tpm.value then TpmExceeded else Allowed)
  }

  /** Roughly four bytes a token; 0 when the length is unknown. */
  function EstimatePromptTokens(contentLength: int): (tokens: nat)
    ensures contentLength > 0 ==> 4 * tokens <= contentLength < 4 * tokens + 4
    ensures contentLength <= 0 ==> tokens == 0
  {
    if contentLength > 0 then contentLength / 4 else 0
  }

  // ----- the object -----

  class KeyLimiterEntry {
    var rpmStart: Option<Time>
    var rpmCount: int
    var tpmStart: Option<Time>
    var tpmTokens: int

    constructor ()
      ensures View() == EMPTY
    {
      rpmStart, rpmCount, tpmStart, tpmTokens := None, 0, None, 0;
    }

    ghost function View(): Entry
      reads this
    {
      Entry(Window(rpmStart, rpmCount), Window(tpmStart, tpmTokens))
    }

    /** The part of `allow` that works on one entry: restart, charge and compare, first for requests,
        then for tokens. */
    method Admit(rpmLimit: Option<int>, tpmLimit: Option<int>, promptTokens: int, now: Time) returns (verdict: Verdict)
      modifies this
      ensures (View(), verdict) == OnRequest(old(View()), Limits(rpmLimit, tpmLimit), now, promptTokens)
    {
      if rpmLimit.Some? {
        if rpmStart.None? || now - rpmStart.value >= MINUTE {
          rpmStart, rpmCount := Some(now), 0;
        }
        rpmCount := rpmCount + 1;
        if rpmCount > rpmLimit.value {
          return RpmExceeded;
        }
      }
      if tpmLimit.Some? {
        if tpmStart.None? || now - tpmStart.value >= MINUTE {
          tpmStart, tpmTokens := Some(now), 0;
        }
        tpmTokens := tpmTokens + promptTokens;
        if tpmTokens > tpmLimit.value {
          return TpmExceeded;
        }
      }
      return Allowed;
    }
  }

  class KeyLimiter {
    var entries: map<string, KeyLimiterEntry>

    ghost predicate Valid()
      reads this
    {
      forall k, l :: k in entries && l in entries && k != l ==> entries[k] != entries[l]
    }

    ghost function View(): map<string, Entry>
      reads this, entries.Values
    {
      map k | k in entries :: entries[k].View()
    }

    constructor ()
      ensures Valid() && View() == map[]
    {
      entries := map[];
    }

    method Allow(keyID: string, rpmLimit: Option<int>, tpmLimit: Option<int>, promptTokens: int, now: Time)
      returns (ok: bool, message: string)
      requires Valid()
      modifies this, entries.Values
      ensures Valid() && fresh(entries.Values - old(entries.Values))
      ensures rpmLimit.None? && tpmLimit.None? ==> ok && View() == old(View())
      ensures rpmLimit.Some? || tpmLimit.Some? ==>
        var before := old(View());
        var entry := if keyID in before then before[keyID] else EMPTY;
        var (after, verdict) := OnRequest(entry, Limits(rpmLimit, tpmLimit), now, promptTokens);
        && View() == before[keyID := after]
        && ok == verdict.Allowed?
        && message == (match verdict
                       case Allowed => ""
                       case RpmExceeded => "rpm limit exceeded"
                       case TpmExceeded => "tpm limit exceeded")
    {
      if rpmLimit.None? && tpmLimit.None? {
        return true, "";
      }
      var entry;
      if keyID in entries {
        entry := entries[keyID];
      } else {
        entry := new KeyLimiterEntry();
        entries := entries[keyID := entry];
      }
      var verdict := entry.Admit(rpmLimit, tpmLimit, promptTokens, now);
      match verdict {
        case Allowed => return true, "";
        case RpmExceeded => return false, "rpm limit exceeded";
        case TpmExceeded => return false, "tpm limit exceeded";
      }
    }
  }

  // ----- one window over a run of charges -----

  datatype Cost = Cost(at: Time, amount: nat)

  predicate ClockedCosts(cs: seq<Cost>) {
    forall i, j :: 0 <= i <= j < |cs| ==> cs[i].at <= cs[j].at
  }

  /** The amounts admitted in the half-open interval [a, b). */
  function Admitted(w: Window, cs: seq<Cost>, limit: int, a: Time, b: Time): nat
    decreases |cs|
  {
    if cs == [] then 0
    else
      var next := Charge(w, cs[0].at, cs[0].amount);
      (if a <= cs[0].at < b && next.used <= limit then cs[0].amount else 0) + Admitted(next, cs[1..], limit, a, b)
  }

  /** How many further windows can start before `b` after one that started at `s`. */
  function FurtherStarts(s: Time, b: Time): nat {
    if b <= s + MINUTE then 0 else (b - s - MINUTE - 1) / MINUTE + 1
  }

  lemma {:induction false} NothingAdmittedAfter(w: Window, cs: seq<Cost>, limit: int, a: Time, b: Time)
    requires forall i :: 0 <= i < |cs| ==> cs[i].at >= b
    ensures Admitted(w, cs, limit, a, b) == 0
    decreases |cs|
  {
    if cs != [] {
      NothingAdmittedAfter(Charge(w, cs[0].at, cs[0].amount), cs[1..], limit, a, b);
    }
  }

  lemma {:induction false} AdmittedFromRunningWindow(w: Window, cs: seq<Cost>, limit: nat, a: Time, b: Time)
    requires ClockedCosts(cs) && w.start.Some?
    ensures Admitted(w, cs, limit, a, b) <= Max(0, limit - w.used) + limit * FurtherStarts(w.start.value, b)
    decreases |cs|
  {
    var s := w.start.value;
    MulMonotone(limit, 0, FurtherStarts(s, b));
    if cs != [] {
      var t := cs[0].at;
      if t >= b {
        NothingAdmittedAfter(w, cs, limit, a, b);
      } else {
        AdmittedFromRunningWindow(Charge(w, t, cs[0].amount), cs[1..], limit, a, b);
        if Expired(w, t) {
          assert FurtherStarts(t, b) + 1 <= FurtherStarts(s, b);
          MulMonotone(limit, FurtherStarts(t, b) + 1, FurtherStarts(s, b));
          assert limit * (FurtherStarts(t, b) + 1) == limit * FurtherStarts(t, b) + limit;
        }
      }
    }
  }

  /** The window has been charged at least `unit` since it started. */
  predicate Charged(w: Window, unit: nat) {
    w.used >= 0 && (w.start.Some? ==> w.used >= unit)
  }

  /** In any stretch of `k` minutes at most `k + 1` windows are open, and the first of them was opened
      by a charge of at least `unit` that lies before the stretch when all `k + 1` are. */
  lemma {:induction false} WindowBound(w: Window, cs: seq<Cost>, limit: nat, unit: nat, a: Time, k: nat)
    requires ClockedCosts(cs) && Charged(w, unit) && k >= 1 && unit <= limit
    requires forall i :: 0 <= i < |cs| ==> cs[i].amount >= unit
    ensures Admitted(w, cs, limit, a, a + k * MINUTE) <= (k + 1) * limit - unit
    decreases |cs|
  {
    var b := a + k * MINUTE;
    assert (k + 1) * limit == limit * k + limit;
    if cs != [] {
      var t := cs[0].at;
      if t < a {
        WindowBound(Charge(w, t, cs[0].amount), cs[1..], limit, unit, a, k);
      } else if Expired(w, t) {
        hide FurtherStarts;
        AdmittedFromRunningWindow(Charge(w, t, cs[0].amount), cs[1..], limit, a, b);
        FewFurtherStarts(t, a, k);
        MulMonotone(limit, FurtherStarts(t, b), k - 1);
        assert limit * (k - 1) == limit * k - limit;
      } else {
        hide FurtherStarts, Admitted;
        AdmittedFromRunningWindow(w, cs, limit, a, b);
        FewFurtherStarts(w.start.value + MINUTE, a, k);
        OneMoreStart(w.start.value, b);
        MulMonotone(limit, FurtherStarts(w.start.value, b), k);
      }
    } else {
      MulMonotone(limit, 1, k);
    }
  }

  /** Of the windows that start in `k` minutes from `a`, at most k - 1 follow one that starts at `s`. */
  lemma FewFurtherStarts(s: Time, a: Time, k: nat)
    requires a <= s && k >= 1
    ensures FurtherStarts(s, a + k * MINUTE) <= k - 1
  {
  }

  lemma OneMoreStart(s: Time, b: Time)
    ensures FurtherStarts(s, b) <= FurtherStarts(s + MINUTE, b) + 1
  {
  }

  lemma {:induction false} NothingFits(w: Window, cs: seq<Cost>, limit: int, unit: nat, a: Time, b: Time)
    requires w.used >= 0 && limit < unit
    requires forall i :: 0 <= i < |cs| ==> cs[i].amount >= unit
    ensures Admitted(w, cs, limit, a, b) == 0
    decreases |cs|
  {
    if cs != [] {
      NothingFits(Charge(w, cs[0].at, cs[0].amount), cs[1..], limit, unit, a, b);
    }
  }

  // ----- runs of requests of one key -----

  datatype Request = Request(at: Time, tokens: nat)

  predicate Clocked(rs: seq<Request>) {
    forall i, j :: 0 <= i <= j < |rs| ==> rs[i].at <= rs[j].at
  }

  function Verdicts(e: Entry, limits: Limits, rs: seq<Request>): (vs: seq<Verdict>)
    ensures |vs| == |rs|
    decreases |rs|
  {
    if rs == [] then []
    else
      var (next, v) := OnRequest(e, limits, rs[0].at, rs[0].tokens);
      [v] + Verdicts(next, limits, rs[1..])
  }

  function Weight(r: Request, tokens: bool): nat {
    if tokens then r.tokens else 1
  }

  /** The allowed requests in [a, b): their number, or the tokens they were estimated at. */
  function AllowedIn(e: Entry, limits: Limits, rs: seq<Request>, a: Time, b: Time, tokens: bool): nat
    decreases |rs|
  {
    if rs == [] then 0
    else
      var (next, v) := OnRequest(e, limits, rs[0].at, rs[0].tokens);
      (if a <= rs[0].at < b && v.Allowed? then Weight(rs[0], tokens) else 0)
      + AllowedIn(next, limits, rs[1..], a, b, tokens)
  }

  function RequestCosts(rs: seq<Request>): (cs: seq<Cost>)
    ensures |cs| == |rs| && forall i :: 0 <= i < |cs| ==> cs[i] == Cost(rs[i].at, 1)
  {
    seq(|rs|, i requires 0 <= i < |rs| => Cost(rs[i].at, 1))
  }

  /** The token window sees only the requests the request window admits. */
  function TokenCosts(e: Entry, limits: Limits, rs: seq<Request>): seq<Cost>
    decreases |rs|
  {
    if rs == [] then []
    else
      var (next, v) := OnRequest(e, limits, rs[0].at, rs[0].tokens);
      (if v.RpmExceeded? then [] else [Cost(rs[0].at, rs[0].tokens)]) + TokenCosts(next, limits, rs[1..])
  }

  lemma {:induction false} RequestsWithinRpmWindow(e: Entry, limits: Limits, rs: seq<Request>, a: Time, b: Time)
    requires limits.rpm.Some?
    ensures AllowedIn(e, limits, rs, a, b, false) <= Admitted(e.rpm, RequestCosts(rs), limits.rpm.value, a, b)
    decreases |rs|
  {
    if rs != [] {
      var next := OnRequest(e, limits, rs[0].at, rs[0].tokens).0;
      RequestsWithinRpmWindow(next, limits, rs[1..], a, b);
      assert RequestCosts(rs)[1..] == RequestCosts(rs[1..]);
    }
  }

  predicate CostsFrom(cs: seq<Cost>, from: Time) {
    ClockedCosts(cs) && (cs != [] ==> from <= cs[0].at)
  }

  lemma {:induction false} TokenCostsAreClocked(e: Entry, limits: Limits, rs: seq<Request>, from: Time)
    requires Clocked(rs) && (rs != [] ==> from <= rs[0].at)
    ensures CostsFrom(TokenCosts(e, limits, rs), from)
    decreases |rs|
  {
    if rs != [] {
      var (next, v) := OnRequest(e, limits, rs[0].at, rs[0].tokens);
      TokenCostsAreClocked(next, limits, rs[1..], rs[0].at);
      var tail := TokenCosts(next, limits, rs[1..]);
      assert [] + tail == tail;
    }
  }

  lemma {:induction false} TokensWithinTpmWindow(e: Entry, limits: Limits, rs: seq<Request>, a: Time, b: Time)
    requires limits.tpm.Some?
    ensures AllowedIn(e, limits, rs, a, b, true) <= Admitted(e.tpm, TokenCosts(e, limits, rs), limits.tpm.value, a, b)
    decreases |rs|
  {
    if rs != [] {
      var (next, v) := OnRequest(e, limits, rs[0].at, rs[0].tokens);
      TokensWithinTpmWindow(next, limits, rs[1..], a, b);
      var cs, tail := TokenCosts(e, limits, rs), TokenCosts(next, limits, rs[1..]);
      if v.RpmExceeded? {
        assert cs == tail;
      } else {
        assert cs[1..] == tail && cs[0] == Cost(rs[0].at, rs[0].tokens);
      }
    }
  }

  /** Any half-open stretch of `k` minutes lets through fewer than (k+1)*RPM requests of a key. */
  lemma RequestRateBound(limits: Limits, rs: seq<Request>, a: Time, k: nat)
    requires limits.rpm.Some? && Clocked(rs) && k >= 1
    ensures AllowedIn(EMPTY, limits, rs, a, a + k * MINUTE, false) <= Max(0, (k + 1) * limits.rpm.value - 1)
  {
    var b := a + k * MINUTE;
    RequestsWithinRpmWindow(EMPTY, limits, rs, a, b);
    if limits.rpm.value >= 1 {
      WindowBound(EMPTY.rpm, RequestCosts(rs), limits.rpm.value, 1, a, k);
    } else {
      NothingFits(EMPTY.rpm, RequestCosts(rs), limits.rpm.value, 1, a, b);
    }
  }

  /** The tokens of the requests let through in `k` minutes are at most (k+1)*TPM (none at all if TPM is negative). */
  lemma TokenRateBound(limits: Limits, rs: seq<Request>, a: Time, k: nat)
    requires limits.tpm.Some? && Clocked(rs) && k >= 1
    ensures AllowedIn(EMPTY, limits, rs, a, a + k * MINUTE, true) <= Max(0, (k + 1) * limits.tpm.value)
  {
    var b := a + k * MINUTE;
    TokensWithinTpmWindow(EMPTY, limits, rs, a, b);
    TokenCostsAreClocked(EMPTY, limits, rs, if rs == [] then 0 else rs[0].at);
    var cs := TokenCosts(EMPTY, limits, rs);
    if limits.tpm.value >= 0 {
      WindowBound(EMPTY.tpm, cs, limits.tpm.value, 0, a, k);
    } else {
      NothingFits(EMPTY.tpm, cs, limits.tpm.value, 0, a, b);
    }
  }

  // ----- what the estimate stands for -----

  /** A request as it arrives: its length is -1 when unknown. */
  datatype Call = Call(at: Time, contentLength: int)

  function Estimated(calls: seq<Call>): (rs: seq<Request>)
    ensures |rs| == |calls|
  {
    seq(|calls|, i requires 0 <= i < |calls| => Request(calls[i].at, EstimatePromptTokens(calls[i].contentLength)))
  }

  /** The bytes of known length let through in [a, b). */
  function BytesIn(e: Entry, limits: Limits, calls: seq<Call>, a: Time, b: Time): nat
    decreases |calls|
  {
    if calls == [] then 0
    else
      var (next, v) := OnRequest(e, limits, calls[0].at, EstimatePromptTokens(calls[0].contentLength));
      (if a <= calls[0].at < b && v.Allowed? then Max(0, calls[0].contentLength) else 0)
      + BytesIn(next, limits, calls[1..], a, b)
  }

  lemma {:induction false} BytesFollowTokens(e: Entry, limits: Limits, calls: seq<Call>, a: Time, b: Time)
    ensures BytesIn(e, limits, calls, a, b) <=
      4 * AllowedIn(e, limits, Estimated(calls), a, b, true) + 3 * AllowedIn(e, limits, Estimated(calls), a, b, false)
    decreases |calls|
  {
    if calls != [] {
      var next := OnRequest(e, limits, calls[0].at, EstimatePromptTokens(calls[0].contentLength)).0;
      BytesFollowTokens(next, limits, calls[1..], a, b);
      assert Estimated(calls)[1..] == Estimated(calls[1..]);
    }
  }

  /** Together the two limits bound what the soft token estimate is about: a key with both gets fewer than
      4*(k+1)*TPM + 3*(k+1)*RPM bytes of prompt through in any `k` minutes. */
  lemma PromptBytesBound(limits: Limits, calls: seq<Call>, a: Time, k: nat)
    requires limits.rpm.Some? && limits.tpm.Some? && Clocked(Estimated(calls)) && k >= 1
    ensures BytesIn(EMPTY, limits, calls, a, a + k * MINUTE) <=
      4 * Max(0, (k + 1) * limits.tpm.value) + 3 * Max(0, (k + 1) * limits.rpm.value - 1)
  {
    BytesFollowTokens(EMPTY, limits, calls, a, a + k * MINUTE);
    RequestRateBound(limits, Estimated(calls), a, k);
    TokenRateBound(limits, Estimated(calls), a, k);
  }

  // ----- who is let through, exactly -----

  /** The position of the request that started the window in which request `k` is counted: a window starts with a
      request that comes a minute or more after the start of the one before. */
  function StartOf(rs: seq<Request>, k: nat): (i: nat)
    requires k < |rs|
    ensures i <= k
  {
    if k == 0 then 0
    else
      var i := StartOf(rs, k - 1);
      if rs[k].at - rs[i].at >= 60_000_000_000 then k else i
  }

  /** The tokens of the requests from position `i` to before `j`. */
  function TokensIn(rs: seq<Request>, i: nat, j: nat): int
    requires i <= j <= |rs|
  {
    if i == j then 0 else TokensIn(rs, i, j - 1) + rs[j - 1].tokens
  }

  /** Counting itself, request `k` is one too many since its window started. */
  predicate TooMany(limits: Limits, rs: seq<Request>, k: nat)
    requires k < |rs|
  {
    limits.rpm.Some? && k - StartOf(rs, k) + 1 > limits.rpm.value
  }

  /** The requests among the first `k` that get past the request limit. */
  function GettingPast(limits: Limits, rs: seq<Request>, k: nat): seq<Request>
    requires k <= |rs|
  {
    if k == 0 then []
    else if TooMany(limits, rs, k - 1) then GettingPast(limits, rs, k - 1)
    else GettingPast(limits, rs, k - 1) + [rs[k - 1]]
  }

  /** With its own tokens, request `k` is above the limit since the token window started, among the requests that
      got past the request limit. */
  predicate TooHeavy(limits: Limits, rs: seq<Request>, k: nat)
    requires k < |rs|
  {
    limits.tpm.Some? &&
    var ts := GettingPast(limits, rs, k) + [rs[k]];
    TokensIn(ts, StartOf(ts, |ts| - 1), |ts|) > limits.tpm.value
  }

  function EntryAfter(e: Entry, limits: Limits, rs: seq<Request>, k: nat): Entry
    requires k <= |rs|
  {
    if k == 0 then e
    else OnRequest(EntryAfter(e, limits, rs, k - 1), limits, rs[k - 1].at, rs[k - 1].tokens).0
  }

  lemma {:induction false} EntryAfterFirst(e: Entry, limits: Limits, rs: seq<Request>, k: nat)
    requires 0 < k <= |rs|
    ensures EntryAfter(e, limits, rs, k)
      == EntryAfter(OnRequest(e, limits, rs[0].at, rs[0].tokens).0, limits, rs[1..], k - 1)
  {
    if k > 1 {
      EntryAfterFirst(e, limits, rs, k - 1);
    }
  }

  lemma {:induction false} VerdictsAreOfEntries(e: Entry, limits: Limits, rs: seq<Request>, k: nat)
    requires k < |rs|
    ensures Verdicts(e, limits, rs)[k] == OnRequest(EntryAfter(e, limits, rs, k), limits, rs[k].at, rs[k].tokens).1
    decreases k
  {
    if k > 0 {
      VerdictsAreOfEntries(OnRequest(e, limits, rs[0].at, rs[0].tokens).0, limits, rs[1..], k - 1);
      EntryAfterFirst(e, limits, rs, k);
    }
  }

  lemma {:induction false} StartIgnoresLater(rs: seq<Request>, r: Request, k: nat)
    requires k < |rs|
    ensures StartOf(rs + [r], k) == StartOf(rs, k)
  {
    if k > 0 {
      StartIgnoresLater(rs, r, k - 1);
    }
  }

  lemma {:induction false} TokensIgnoreLater(rs: seq<Request>, r: Request, i: nat, j: nat)
    requires i <= j <= |rs|
    ensures TokensIn(rs + [r], i, j) == TokensIn(rs, i, j)
  {
    if i < j {
      TokensIgnoreLater(rs, r, i, j - 1);
    }
  }

  /** The request window after the first `k` requests. */
  function RequestWindow(rs: seq<Request>, k: nat): Window
    requires k <= |rs|
  {
    if k == 0 then Window(None, 0)
    else Window(Some(rs[StartOf(rs, k - 1)].at), k - StartOf(rs, k - 1))
  }

  /** The token window after all of `ts`. */
  function TokenWindow(ts: seq<Request>): Window {
    if ts == [] then Window(None, 0)
    else
      var i := StartOf(ts, |ts| - 1);
      Window(Some(ts[i].at), TokensIn(ts, i, |ts|))
  }

  lemma TokenWindowGrows(ts: seq<Request>, r: Request)
    ensures Charge(TokenWindow(ts), r.at, r.tokens) == TokenWindow(ts + [r])
  {
    var longer := ts + [r];
    assert TokensIn(longer, |ts|, |ts|) == 0;
    if ts != [] {
      StartIgnoresLater(ts, r, |ts| - 1);
      TokensIgnoreLater(ts, r, StartOf(ts, |ts| - 1), |ts|);
    } else {
      assert longer == [r] && TokensIn(longer, 0, 1) == r.tokens;
    }
  }

  lemma {:induction false} EntryHoldsWindows(limits: Limits, rs: seq<Request>, k: nat)
    requires k <= |rs|
    ensures EntryAfter(EMPTY, limits, rs, k) ==
      Entry(if limits.rpm.Some? then RequestWindow(rs, k) else Window(None, 0),
            if limits.tpm.Some? then TokenWindow(GettingPast(limits, rs, k)) else Window(None, 0))
  {
    if k > 0 {
      EntryHoldsWindows(limits, rs, k - 1);
      TokenWindowGrows(GettingPast(limits, rs, k - 1), rs[k - 1]);
    }
  }

  /** Whatever comes before, a request is turned away exactly when, counting itself, the requests since its window
      started are too many, or the tokens since the token window started, of the requests that were not too many,
      are above the limit. */
  lemma AdmittedExactly(limits: Limits, rs: seq<Request>, k: nat)
    requires k < |rs|
    ensures Verdicts(EMPTY, limits, rs)[k] ==
      if TooMany(limits, rs, k) then RpmExceeded else if TooHeavy(limits, rs, k) then TpmExceeded else Allowed
  {
    VerdictsAreOfEntries(EMPTY, limits, rs, k);
    EntryHoldsWindows(limits, rs, k);
    TokenWindowGrows(GettingPast(limits, rs, k), rs[k]);
  }

  /** A first request is let through when it alone is within the limits. */
  lemma FirstRequestIsAllowed(limits: Limits, r: Request)
    requires (limits.rpm.Some? ==> limits.rpm.value >= 1) && (limits.tpm.Some? ==> r.tokens <= limits.tpm.value)
    ensures Verdicts(EMPTY, limits, [r]) == [Allowed]
  {
    AdmittedExactly(limits, [r], 0);
    assert TokensIn([] + [r], 0, 1) == TokensIn([] + [r], 0, 0) + r.tokens;
  }

  // ----- rejections last -----

  predicate Overspent(w: Window, limit: Option<int>) {
    limit.Some? && w.start.Some? && w.used > limit.value
  }

  predicate AllBefore(rs: seq<Request>, end: Time) {
    forall i :: 0 <= i < |rs| ==> rs[i].at < end
  }

  predicate NoneAllowed(vs: seq<Verdict>) {
    forall i :: 0 <= i < |vs| ==> !vs[i].Allowed?
  }

  lemma {:induction false} RequestOverspentRejectsAll(e: Entry, limits: Limits, rs: seq<Request>)
    requires Overspent(e.rpm, limits.rpm) && AllBefore(rs, e.rpm.start.value + MINUTE)
    ensures NoneAllowed(Verdicts(e, limits, rs))
    decreases |rs|
  {
    if rs != [] {
      RequestOverspentRejectsAll(OnRequest(e, limits, rs[0].at, rs[0].tokens).0, limits, rs[1..]);
    }
  }

  lemma {:induction false} TokenOverspentRejectsAll(e: Entry, limits: Limits, rs: seq<Request>)
    requires Overspent(e.tpm, limits.tpm) && AllBefore(rs, e.tpm.start.value + MINUTE)
    ensures NoneAllowed(Verdicts(e, limits, rs))
    decreases |rs|
  {
    if rs != [] {
      TokenOverspentRejectsAll(OnRequest(e, limits, rs[0].at, rs[0].tokens).0, limits, rs[1..]);
    }
  }

  /** Once a limit has rejected a request, every later request in that limit's window is rejected,
      whatever the other limit does meanwhile. */
  lemma RejectionLasts(e: Entry, limits: Limits, r: Request, rs: seq<Request>)
    requires var (after, v) := OnRequest(e, limits, r.at, r.tokens);
      && (v.RpmExceeded? ==> AllBefore(rs, after.rpm.start.value + MINUTE))
      && (v.TpmExceeded? ==> AllBefore(rs, after.tpm.start.value + MINUTE))
      && !v.Allowed?
    ensures NoneAllowed(Verdicts(OnRequest(e, limits, r.at, r.tokens).0, limits, rs))
  {
    var (after, v) := OnRequest(e, limits, r.at, r.tokens);
    if v.RpmExceeded? {
      RequestOverspentRejectsAll(after, limits, rs);
    } else {
      TokenOverspentRejectsAll(after, limits, rs);
    }
  }

  // ----- the bound is exact -----

  function Burst(t: Time, n: nat): seq<Request> {
    seq(n, _ => Request(t, 0))
  }

  /** `k` bursts of `n` requests, one a minute, the first in minute `j`. */
  function Bursts(j: nat, k: nat, n: nat): seq<Request>
    decreases k
  {
    if k == 0 then [] else Burst(j * MINUTE, n) + Bursts(j + 1, k - 1, n)
  }

  /** One request opens a window, the rest of its budget is spent in its last instant, and each of the
      next `k` windows is spent as soon as it opens. */
  function WorstCase(rpm: nat, k: nat): seq<Request>
    requires rpm >= 1
  {
    [Request(0, 0)] + (Burst(MINUTE - 1, rpm - 1) + Bursts(1, k, rpm))
  }

  function RpmState(start: Time, used: int): Entry {
    Entry(Window(Some(start), used), EMPTY.tpm)
  }

  lemma {:induction false} BurstIsAllowed(s: Time, u: nat, rpm: nat, t: Time, n: nat, rest: seq<Request>, a: Time, b: Time)
    requires t < s + MINUTE && u + n <= rpm && a <= t < b
    ensures AllowedIn(RpmState(s, u), Limits(Some(rpm), None), Burst(t, n) + rest, a, b, false)
         == n + AllowedIn(RpmState(s, u + n), Limits(Some(rpm), None), rest, a, b, false)
    decreases n
  {
    var rs := Burst(t, n) + rest;
    if n == 0 {
      assert rs == rest;
    } else {
      assert rs[0] == Request(t, 0) && rs[1..] == Burst(t, n - 1) + rest;
      BurstIsAllowed(s, u + 1, rpm, t, n - 1, rest, a, b);
    }
  }

  lemma {:induction false} BurstsAreAllowed(s: Time, u: nat, rpm: nat, j: nat, k: nat, a: Time, b: Time)
    requires rpm >= 1 && s <= (j - 1) * MINUTE && a <= j * MINUTE && (j + k - 1) * MINUTE < b
    ensures AllowedIn(RpmState(s, u), Limits(Some(rpm), None), Bursts(j, k, rpm), a, b, false) == k * rpm
    decreases k
  {
    if k > 0 {
      var t := j * MINUTE;
      var rest := Bursts(j + 1, k - 1, rpm);
      var rs := Burst(t, rpm) + rest;
      assert rs[0] == Request(t, 0) && rs[1..] == Burst(t, rpm - 1) + rest;
      BurstIsAllowed(t, 1, rpm, t, rpm - 1, rest, a, b);
      BurstsAreAllowed(t, rpm, rpm, j + 1, k - 1, a, b);
      assert k * rpm == (k - 1) * rpm + rpm;
    }
  }

  /** RequestRateBound cannot be improved, for any limit and any number of minutes. */
  lemma RequestRateBoundIsTight(rpm: nat, k: nat)
    requires rpm >= 1 && k >= 1
    ensures var a := MINUTE - 1;
      AllowedIn(EMPTY, Limits(Some(rpm), None), WorstCase(rpm, k), a, a + k * MINUTE, false) == (k + 1) * rpm - 1
  {
    var a := MINUTE - 1;
    var rs := WorstCase(rpm, k);
    assert rs[0] == Request(0, 0) && rs[1..] == Burst(MINUTE - 1, rpm - 1) + Bursts(1, k, rpm);
    BurstIsAllowed(0, 1, rpm, MINUTE - 1, rpm - 1, Bursts(1, k, rpm), a, a + k * MINUTE);
    BurstsAreAllowed(0, rpm, rpm, 1, k, a, a + k * MINUTE);
    assert (k + 1) * rpm == k * rpm + rpm;
  }

  // ----- both bounds at once -----

  function BothState(start: Time, used: int, tokens: int): Entry {
    Entry(Window(Some(start), used), Window(Some(start), tokens))
  }

  /** A burst whose first request carries all the tokens. */
  function Loaded(t: Time, n: nat, tokens: nat): seq<Request> {
    if n == 0 then [] else [Request(t, tokens)] + Burst(t, n - 1)
  }

  function LoadedBursts(j: nat, k: nat, n: nat, tokens: nat): seq<Request>
    decreases k
  {
    if k == 0 then [] else Loaded(j * MINUTE, n, tokens) + LoadedBursts(j + 1, k - 1, n, tokens)
  }

  /** As `WorstCase`: the request that opens the first window carries no tokens. */
  function WorstOfBoth(rpm: nat, tpm: nat, k: nat): seq<Request>
    requires rpm >= 2
  {
    [Request(0, 0)] + (Loaded(MINUTE - 1, rpm - 1, tpm) + LoadedBursts(1, k, rpm, tpm))
  }

  lemma LightStep(start: Time, used: nat, spent: int, rpm: nat, tpm: nat, t: Time, rs: seq<Request>, a: Time, b: Time,
      tokens: bool)
    requires t < start + MINUTE && used < rpm && spent <= tpm && a <= t < b && rs != [] && rs[0] == Request(t, 0)
    ensures var limits := Limits(Some(rpm), Some(tpm));
      AllowedIn(BothState(start, used, spent), limits, rs, a, b, tokens)
      == (if tokens then 0 else 1) + AllowedIn(BothState(start, used + 1, spent), limits, rs[1..], a, b, tokens)
  {
  }

  lemma {:induction false} LightBurst(start: Time, used: nat, spent: int, rpm: nat, tpm: nat, t: Time, n: nat,
      rest: seq<Request>, a: Time, b: Time, tokens: bool)
    requires t < start + MINUTE && used + n <= rpm && spent <= tpm && a <= t < b
    ensures var limits := Limits(Some(rpm), Some(tpm));
      AllowedIn(BothState(start, used, spent), limits, Burst(t, n) + rest, a, b, tokens)
      == (if tokens then 0 else n) + AllowedIn(BothState(start, used + n, spent), limits, rest, a, b, tokens)
    decreases n
  {
    var rs := Burst(t, n) + rest;
    if n == 0 {
      assert rs == rest;
    } else {
      assert rs[0] == Request(t, 0) && rs[1..] == Burst(t, n - 1) + rest;
      LightStep(start, used, spent, rpm, tpm, t, rs, a, b, tokens);
      hide AllowedIn;
      LightBurst(start, used + 1, spent, rpm, tpm, t, n - 1, rest, a, b, tokens);
    }
  }

  function Share(rpm: nat, tpm: nat, tokens: bool): nat {
    if tokens then tpm else rpm
  }

  lemma LoadedPasses(start: Time, used: nat, spent: int, rpm: nat, tpm: nat, t: Time, rest: seq<Request>, a: Time,
      b: Time, tokens: bool)
    requires rpm >= 1 && t >= start + MINUTE && a <= t < b
    ensures var limits := Limits(Some(rpm), Some(tpm));
      AllowedIn(BothState(start, used, spent), limits, Loaded(t, rpm, tpm) + rest, a, b, tokens)
      == Share(rpm, tpm, tokens) + AllowedIn(BothState(t, rpm, tpm), limits, rest, a, b, tokens)
  {
    var rs := Loaded(t, rpm, tpm) + rest;
    assert rs[0] == Request(t, tpm) && rs[1..] == Burst(t, rpm - 1) + rest;
    LightBurst(t, 1, tpm, rpm, tpm, t, rpm - 1, rest, a, b, tokens);
  }

  lemma TimesOneMore(k: nat, x: nat)
    requires k > 0
    ensures k * x == (k - 1) * x + x
  {
  }

  lemma {:induction false} LoadedBurstsPass(start: Time, used: nat, spent: int, rpm: nat, tpm: nat, j: nat, k: nat,
      a: Time, b: Time, tokens: bool)
    requires rpm >= 1 && start <= (j - 1) * MINUTE && a <= j * MINUTE && (j + k - 1) * MINUTE < b
    ensures AllowedIn(BothState(start, used, spent), Limits(Some(rpm), Some(tpm)), LoadedBursts(j, k, rpm, tpm), a, b,
      tokens) == k * Share(rpm, tpm, tokens)
    decreases k
  {
    if k > 0 {
      hide AllowedIn, Share, BothState, Loaded;
      LoadedPasses(start, used, spent, rpm, tpm, j * MINUTE, LoadedBursts(j + 1, k - 1, rpm, tpm), a, b, tokens);
      LoadedBurstsPass(j * MINUTE, rpm, tpm, rpm, tpm, j + 1, k - 1, a, b, tokens);
      TimesOneMore(k, Share(rpm, tpm, tokens));
    }
  }

  /** Neither bound can be improved, and one run reaches both: with any two limits, the first of at least 2, and for
      any number of minutes. */
  lemma BothBoundsAreTight(rpm: nat, tpm: nat, k: nat)
    requires rpm >= 2 && k >= 1
    ensures var a, limits := MINUTE - 1, Limits(Some(rpm), Some(tpm));
      && AllowedIn(EMPTY, limits, WorstOfBoth(rpm, tpm, k), a, a + k * MINUTE, false) == (k + 1) * rpm - 1
      && AllowedIn(EMPTY, limits, WorstOfBoth(rpm, tpm, k), a, a + k * MINUTE, true) == (k + 1) * tpm
  {
    hide AllowedIn;
    WorstOfBothPasses(rpm, tpm, k, false);
    WorstOfBothPasses(rpm, tpm, k, true);
    TimesOneMore(k + 1, rpm);
    TimesOneMore(k + 1, tpm);
  }

  lemma OpenedEarly(rpm: nat, tpm: nat, rs: seq<Request>, a: Time, b: Time, tokens: bool)
    requires rpm >= 1 && a > 0
    ensures var limits := Limits(Some(rpm), Some(tpm));
      AllowedIn(EMPTY, limits, [Request(0, 0)] + rs, a, b, tokens) == AllowedIn(BothState(0, 1, 0), limits, rs, a, b, tokens)
  {
    assert ([Request(0, 0)] + rs)[1..] == rs;
  }

  lemma SpentLate(rpm: nat, tpm: nat, rest: seq<Request>, b: Time, tokens: bool)
    requires rpm >= 2 && MINUTE - 1 < b
    ensures var a, limits := MINUTE - 1, Limits(Some(rpm), Some(tpm));
      AllowedIn(BothState(0, 1, 0), limits, Loaded(a, rpm - 1, tpm) + rest, a, b, tokens)
      == Share(rpm - 1, tpm, tokens) + AllowedIn(BothState(0, rpm, tpm), limits, rest, a, b, tokens)
  {
    var a := MINUTE - 1;
    var rs := Loaded(a, rpm - 1, tpm) + rest;
    assert rs[0] == Request(a, tpm) && rs[1..] == Burst(a, rpm - 2) + rest;
    LightBurst(0, 2, tpm, rpm, tpm, a, rpm - 2, rest, a, b, tokens);
  }

  lemma WorstOfBothPasses(rpm: nat, tpm: nat, k: nat, tokens: bool)
    requires rpm >= 2 && k >= 1
    ensures AllowedIn(EMPTY, Limits(Some(rpm), Some(tpm)), WorstOfBoth(rpm, tpm, k), MINUTE - 1, MINUTE - 1 + k * MINUTE,
      tokens) == Share(rpm - 1, tpm, tokens) + k * Share(rpm, tpm, tokens)
  {
    hide AllowedIn, Share, BothState, Loaded, LoadedBursts;
    var a, b, rest := MINUTE - 1, MINUTE - 1 + k * MINUTE, LoadedBursts(1, k, rpm, tpm);
    OpenedEarly(rpm, tpm, Loaded(a, rpm - 1, tpm) + rest, a, b, tokens);
    SpentLate(rpm, tpm, rest, b, tokens);
    LoadedBurstsPass(0, rpm, tpm, rpm, tpm, 1, k, a, b, tokens);
  }

  /** The token bound is reached for a key without a request limit as well. */
  lemma TokenRateBoundIsTight(tpm: nat, k: nat)
    requires k >= 1
    ensures var a := MINUTE - 1;
      AllowedIn(EMPTY, Limits(None, Some(tpm)), WorstOfBoth(2, tpm, k), a, a + k * MINUTE, true) == (k + 1) * tpm
  {
    var a, limits := MINUTE - 1, Limits(None, Some(tpm));
    var rs, rest := WorstOfBoth(2, tpm, k), LoadedBursts(1, k, 2, tpm);
    var second := Loaded(a, 1, tpm) + rest;
    assert rs[0] == Request(0, 0) && rs[1..] == second;
    assert second[0] == Request(a, tpm) && second[1..] == rest;
    TokenBurstsPass(0, tpm, tpm, 1, k, a, a + k * MINUTE);
    assert (k + 1) * tpm == k * tpm + tpm;
  }

  lemma {:induction false} TokenBurstsPass(start: Time, spent: int, tpm: nat, j: nat, k: nat, a: Time, b: Time)
    requires start <= (j - 1) * MINUTE && a <= j * MINUTE && (j + k - 1) * MINUTE < b
    ensures AllowedIn(Entry(EMPTY.rpm, Window(Some(start), spent)), Limits(None, Some(tpm)), LoadedBursts(j, k, 2, tpm),
      a, b, true) == k * tpm
    decreases k
  {
    if k > 0 {
      var t := j * MINUTE;
      var rest := LoadedBursts(j + 1, k - 1, 2, tpm);
      var rs := Loaded(t, 2, tpm) + rest;
      assert rs[0] == Request(t, tpm) && rs[1..][0] == Request(t, 0) && rs[1..][1..] == rest;
      TokenBurstsPass(t, tpm, tpm, j + 1, k - 1, a, b);
      assert k * tpm == (k - 1) * tpm + tpm;
    }
  }
}
