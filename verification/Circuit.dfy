/** The sliding-window circuit breaker of internal/proxy/circuit.go.

    `Breaker` is the value of one breaker; `OnAllow`, `OnSuccess`, `OnFailure` and `Configured`
    say what one mutex-protected call does to it. The class `CircuitBreaker` is the object with
    its two timestamp slices pruned in place, proved against them. What the calls mean over
    whole runs is proved in CircuitRuns.dfy. */
module Circuit {
  import opened Prelude

  const SECOND: int := 1_000_000_000

  datatype State = Closed | Open | HalfOpen

  datatype Settings = Settings(threshold: real, window: int, cooldown: int)

  datatype Breaker = Breaker(
    state: State,
    failures: seq<Time>,
    successes: seq<Time>,
    lastChange: Time,
    settings: Settings)

  const DEFAULTS := Settings(0.5, 60 * SECOND, 30 * SECOND)

  function New(now: Time): Breaker {
    Breaker(Closed, [], [], now, DEFAULTS)
  }

  /** The entries strictly later than `cutoff`, in order. */
  function After(ts: seq<Time>, cutoff: Time): (kept: seq<Time>)
    ensures |kept| <= |ts|
  {
    if ts == [] then []
    else
      var rest := After(ts[..|ts| - 1], cutoff);
      if ts[|ts| - 1] > cutoff then rest + [ts[|ts| - 1]] else rest
  }

  function Prune(b: Breaker, now: Time): Breaker {
    var cutoff := now - b.settings.window;
    b.(failures := After(b.failures, cutoff), successes := After(b.successes, cutoff))
  }

  /** Each setting is replaced only by a value in its legal range. */
  function Reconfigured(old_: Settings, next: Settings): (s: Settings)
    ensures old_.window > 0 ==> s.window > 0
    ensures old_.cooldown > 0 ==> s.cooldown > 0
  {
    Settings(
      if 0.0 < next.threshold <= 1.0 then next.threshold else old_.threshold,
      if next.window > 0 then next.window else old_.window,
      if next.cooldown > 0 then next.cooldown else old_.cooldown)
  }

  function Configured(b: Breaker, next: Settings): Breaker {
    b.(settings := Reconfigured(b.settings, next))
  }

  predicate Refuses(b: Breaker, now: Time) {
    b.state.Open? && now - b.lastChange < b.settings.cooldown
  }

  function OnAllow(b: Breaker, now: Time): Breaker {
    if b.state.Open? && !Refuses(b, now) then b.(state := HalfOpen, lastChange := now) else b
  }

  function OnSuccess(b: Breaker, now: Time): Breaker {
    var p := Prune(b, now);
    var q := p.(successes := p.successes + [now]);
    if q.state.HalfOpen? then q.(state := Closed, failures := [], lastChange := now) else q
  }

  predicate OverThreshold(failures: nat, successes: nat, threshold: real) {
    failures + successes > 0 && failures as real / (failures + successes) as real > threshold
  }

  function OnFailure(b: Breaker, now: Time): Breaker {
    var p := Prune(b, now);
    var q := p.(failures := p.failures + [now]);
    if q.state.HalfOpen? || (q.state.Closed? && OverThreshold(|q.failures|, |q.successes|, q.settings.threshold))
    then q.(state := Open, lastChange := now)
    else q
  }

  // ----- the object, with its slices compacted in place -----

  /** `kept := ts[:0]`, then append what is after the cutoff: the same backing array is reused. */
  method CompactAfter(buf: array<Time>, n: nat, cutoff: Time) returns (kept: nat)
    requires n <= buf.Length
    modifies buf
    ensures kept <= n
    ensures buf[..kept] == After(old(buf[..n]), cutoff)
  {
    kept := 0;
    ghost var was := buf[..n];
    for i := 0 to n
      invariant kept <= i
      invariant buf[..kept] == After(was[..i], cutoff)
      invariant forall j :: i <= j < n ==> buf[j] == was[j]
    {
      assert was[..i + 1][..i] == was[..i];
      if buf[i] > cutoff {
        buf[kept] := buf[i];
        kept := kept + 1;
      }
    }
    assert was[..n] == was;
  }

  /** Go's append: in place while there is room, otherwise into a larger copy. */
  method Append(buf: array<Time>, n: nat, t: Time) returns (grown: array<Time>)
    requires n <= buf.Length
    modifies buf
    ensures grown == buf || fresh(grown)
    ensures n < grown.Length
    ensures grown[..n + 1] == old(buf[..n]) + [t]
  {
    grown := buf;
    if n == buf.Length {
      grown := new Time[2 * n + 1];
      forall i | 0 <= i < n {
        grown[i] := buf[i];
      }
    }
    grown[n] := t;
  }

  class CircuitBreaker {
    var state: State
    var failures: array<Time>
    var nf: nat
    var successes: array<Time>
    var ns: nat
    var lastChange: Time
    var settings: Settings

    ghost predicate Valid()
      reads this
    {
      failures != successes && nf <= failures.Length && ns <= successes.Length
    }

    ghost function Footprint(): set<object>
      reads this
    {
      {this, failures, successes}
    }

    ghost function View(): Breaker
      requires Valid()
      reads this, failures, successes
    {
      Breaker(state, failures[..nf], successes[..ns], lastChange, settings)
    }

    constructor (now: Time)
      ensures Valid() && fresh(failures) && fresh(successes)
      ensures View() == New(now)
      ensures state == Closed && nf == ns == 0 && lastChange == now
      ensures settings == Settings(0.5, 60_000_000_000, 30_000_000_000)
    {
      state, lastChange, settings := Closed, now, DEFAULTS;
      failures, nf := new Time[0], 0;
      successes, ns := new Time[0], 0;
    }

    method Configure(threshold: real, window: int, cooldown: int)
      requires Valid()
      modifies this`settings
      ensures View() == Configured(old(View()), Settings(threshold, window, cooldown))
      ensures settings.threshold == if 0.0 < threshold <= 1.0 then threshold else old(settings.threshold)
      ensures settings.window == if window > 0 then window else old(settings.window)
      ensures settings.cooldown == if cooldown > 0 then cooldown else old(settings.cooldown)
    {
      if 0.0 < threshold && threshold <= 1.0 {
        settings := settings.(threshold := threshold);
      }
      if window > 0 {
        settings := settings.(window := window);
      }
      if cooldown > 0 {
        settings := settings.(cooldown := cooldown);
      }
    }

    method Allow(now: Time) returns (ok: bool)
      requires Valid()
      modifies this`state, this`lastChange
      ensures ok == !Refuses(old(View()), now)
      ensures View() == OnAllow(old(View()), now)
      ensures ok <==> old(state) != Open || now - old(lastChange) >= settings.cooldown
      ensures state == (if old(state) == Open && ok then HalfOpen else old(state))
    {
      match state {
        case Closed => ok := true;
        case Open =>
          ok := now - lastChange >= settings.cooldown;
          if ok {
            state, lastChange := HalfOpen, now;
          }
        case HalfOpen => ok := true;
      }
    }

    method PruneAt(now: Time)
      requires Valid()
      modifies this`nf, this`ns, failures, successes
      ensures Valid()
      ensures View() == Prune(old(View()), now)
    {
      var cutoff := now - settings.window;
      nf := CompactAfter(failures, nf, cutoff);
      ns := CompactAfter(successes, ns, cutoff);
    }

    method RecordSuccess(now: Time)
      requires Valid()
      modifies this, failures, successes
      ensures Valid()
      ensures fresh(Footprint() - old(Footprint()))
      ensures View() == OnSuccess(old(View()), now)
      ensures state == (if old(state) == HalfOpen then Closed else old(state))
      ensures if old(state) == HalfOpen then nf == 0 && lastChange == now else lastChange == old(lastChange)
      ensures ns > 0 && successes[ns - 1] == now
    {
      PruneAt(now);
      successes := Append(successes, ns, now);
      ns := ns + 1;
      if state == HalfOpen {
        state, nf, lastChange := Closed, 0, now;
      }
    }

    method RecordFailure(now: Time)
      requires Valid()
      modifies this, failures, successes
      ensures Valid()
      ensures fresh(Footprint() - old(Footprint()))
      ensures View() == OnFailure(old(View()), now)
      ensures old(state) != Closed ==> state == Open
      ensures old(state) != Open && state == Open ==> lastChange == now
      ensures old(state) == state ==> lastChange == old(lastChange)
      ensures nf > 0 && failures[nf - 1] == now
    {
      PruneAt(now);
      failures := Append(failures, nf, now);
      nf := nf + 1;
      match state {
        case HalfOpen => state, lastChange := Open, now;
        case Closed =>
          var total := nf + ns;
          if total > 0 && nf as real / total as real > settings.threshold {
            state, lastChange := Open, now;
          }
        case Open =>
      }
    }
  }
}
