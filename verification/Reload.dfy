/** How the routing catalog follows the tables: ReloadAsync, the worker of Start and Reload in
    internal/proxy/catalog.go, with the four separate table reads of internal/db/sqlite_routing.go.

    The parties interleave freely: table writers, notifiers and one worker. A table is represented by
    its version, the number of writes it has seen; a snapshot by the versions it was read at. */
module Reload {

  const TABLES: nat := 4

  type Versions = v: seq<nat> | |v| == TABLES witness [0, 0, 0, 0]

  datatype Worker = Idle | Reading(seen: seq<nat>) | Stopped

  /** What nobody in the program keeps, but the guarantees are about. For routing: `published` and `notified`
      are the versions in the snapshot and at the last notification; a table is `dirty` when it was written
      after its last good read, and `owed` when that was then notified; `dirtyRead` and `owedRead` say the same
      relative to the reads of the reload in progress. For tearing: `moments` are the states of the tables since
      the reload began; `missed` says that a table was written after it was read, and `torn` that after such a
      write another table was written that is only read later. */
  datatype History = History(
    notified: Versions,
    lastReloadFailed: bool,
    dirty: set<nat>,
    owed: set<nat>,
    dirtyRead: set<nat>,
    owedRead: set<nat>,
    moments: seq<Versions>,
    missed: bool,
    torn: bool)

  /** `token` is the one slot of the channel. */
  datatype State = State(tables: Versions, token: bool, worker: Worker, published: Versions, past: History)

  datatype Step = Write(table: nat) | Notify | Receive | ReadNext | FailRead | Publish | Stop

  const ZERO: Versions := [0, 0, 0, 0]

  const INIT := State(ZERO, false, Idle, ZERO, History(ZERO, false, {}, {}, {}, {}, [ZERO], false, false))

  /** Table `t` has been read by the reload in progress. */
  predicate Read(s: State, t: nat) {
    s.worker.Reading? && t < |s.worker.seen|
  }

  function Written(tables: Versions, t: nat): Versions
    requires t < TABLES
  {
    tables[t := tables[t] + 1]
  }

  function AfterWrite(s: State, t: nat): History
    requires t < TABLES
  {
    var h := s.past;
    h.(dirty := h.dirty + {t},
       dirtyRead := if Read(s, t) then h.dirtyRead + {t} else h.dirtyRead,
       moments := h.moments + [Written(s.tables, t)],
       missed := h.missed || Read(s, t),
       torn := h.torn || (h.missed && s.worker.Reading? && !Read(s, t)))
  }

  function AfterNotify(s: State): History {
    var h := s.past;
    h.(notified := s.tables, owed := h.owed + h.dirty, owedRead := h.owedRead + h.dirtyRead)
  }

  function AfterReceive(s: State): History {
    s.past.(dirtyRead := {}, owedRead := {}, moments := [s.tables], missed := false, torn := false)
  }

  function AfterPublish(s: State): History {
    s.past.(lastReloadFailed := false, dirty := s.past.dirtyRead, owed := s.past.owedRead)
  }

  /** A step that is not enabled leaves the state alone. */
  function Next(s: State, step: Step): State {
    match step
    case Write(t) => if t < TABLES then s.(tables := Written(s.tables, t), past := AfterWrite(s, t)) else s
    case Notify => s.(token := true, past := AfterNotify(s))
    case Receive =>
      if s.worker.Idle? && s.token then s.(token := false, worker := Reading([]), past := AfterReceive(s)) else s
    case ReadNext =>
      if s.worker.Reading? && |s.worker.seen| < TABLES
      then s.(worker := Reading(s.worker.seen + [s.tables[|s.worker.seen|]]))
      else s
    case FailRead =>
      if s.worker.Reading? then s.(worker := Idle, past := s.past.(lastReloadFailed := true)) else s
    case Publish =>
      if s.worker.Reading? && |s.worker.seen| == TABLES
      then s.(worker := Idle, published := s.worker.seen, past := AfterPublish(s))
      else s
    case Stop => if s.worker.Idle? then s.(worker := Stopped) else s
  }

  function Exec(s: State, steps: seq<Step>): State
    decreases |steps|
  {
    if steps == [] then s else Exec(Next(s, steps[0]), steps[1..])
  }

  predicate AtLeast(v: seq<nat>, w: seq<nat>) {
    |v| <= |w| && forall i :: 0 <= i < |v| ==> v[i] >= w[i]
  }

  predicate AtMost(v: seq<nat>, w: seq<nat>) {
    |v| <= |w| && forall i :: 0 <= i < |v| ==> v[i] <= w[i]
  }

  predicate PrefixOf(v: seq<nat>, w: seq<nat>) {
    |v| <= |w| && forall i :: 0 <= i < |v| ==> v[i] == w[i]
  }

  predicate Quiet(s: State) {
    s.worker.Idle? && !s.token
  }

  // ----- what is kept -----

  /** What has been read and published relative to what was notified. */
  ghost predicate Fresh(s: State) {
    && AtLeast(s.tables, s.past.notified)
    && AtLeast(s.tables, s.published)
    && (Quiet(s) && !s.past.lastReloadFailed ==> AtLeast(s.published, s.past.notified))
    && (s.worker.Reading? ==>
          && AtLeast(s.worker.seen, s.published)
          && AtMost(s.worker.seen, s.tables)
          && (!s.token ==> AtLeast(s.worker.seen, s.past.notified)))
  }

  /** The bits of the history mean what their names say. */
  ghost predicate Booked(s: State) {
    && (forall t: nat :: t in s.past.dirty <==> t < TABLES && s.tables[t] > s.published[t])
    && (forall t: nat :: t in s.past.owed <==> t < TABLES && s.past.notified[t] > s.published[t])
    && (s.worker.Reading? ==>
          && |s.worker.seen| <= TABLES
          && (forall t: nat :: t in s.past.dirtyRead <==> t < |s.worker.seen| && s.tables[t] > s.worker.seen[t])
          && (forall t: nat :: t in s.past.owedRead <==> t < |s.worker.seen| && s.past.notified[t] > s.worker.seen[t]))
  }

  /** What was read so far is what the tables were at moment `i`, and so is what is left to read. */
  ghost predicate Pivot(s: State, i: nat)
    requires s.worker.Reading?
  {
    && i < |s.past.moments|
    && PrefixOf(s.worker.seen, s.past.moments[i])
    && forall j :: |s.worker.seen| <= j < TABLES ==> s.tables[j] == s.past.moments[i][j]
  }

  /** Table `a` is read too early, and table `b`, beyond version `v`, too late, for any one moment. */
  ghost predicate Split(s: State, a: nat, b: nat, v: nat)
    requires s.worker.Reading? && |s.worker.seen| <= TABLES
  {
    && a < |s.worker.seen| && b < TABLES
    && s.tables[a] > s.worker.seen[a] && s.tables[b] > v
    && (b < |s.worker.seen| ==> s.worker.seen[b] > v)
    && forall i :: 0 <= i < |s.past.moments| ==> s.past.moments[i][a] > s.worker.seen[a] || s.past.moments[i][b] <= v
  }

  ghost predicate Outdated(s: State, a: nat)
    requires s.worker.Reading? && |s.worker.seen| <= TABLES
  {
    a < |s.worker.seen| && s.tables[a] > s.worker.seen[a]
  }

  ghost predicate Watched(s: State) {
    var h := s.past;
    s.worker.Reading? ==>
      && |s.worker.seen| <= TABLES && h.moments != [] && h.moments[|h.moments| - 1] == s.tables
      && (forall i :: 0 <= i < |h.moments| ==> AtMost(h.moments[i], s.tables))
      && (!h.missed ==> PrefixOf(s.worker.seen, s.tables) && !h.torn)
      && (h.missed ==> |h.moments| >= 2 && exists a :: Outdated(s, a))
      && (h.missed && !h.torn ==> exists i :: Pivot(s, i))
      && (h.torn ==> |h.moments| >= 3 && exists a, b, v :: Split(s, a, b, v))
  }

  ghost predicate Inv(s: State) {
    Fresh(s) && Booked(s) && Watched(s)
  }

  lemma StepKeepsFresh(s: State, step: Step)
    requires Fresh(s)
    ensures Fresh(Next(s, step)) && AtLeast(Next(s, step).published, s.published)
  {
  }

  lemma StepKeepsBooked(s: State, step: Step)
    requires Fresh(s) && Booked(s)
    ensures Booked(Next(s, step))
  {
  }

  lemma WriteKeepsWatched(s: State, t: nat)
    requires Watched(s) && s.worker.Reading? && t < TABLES
    ensures Watched(Next(s, Write(t)))
  {
    var h, n := s.past, Next(s, Write(t));
    assert forall i :: 0 <= i < |h.moments| ==> n.past.moments[i] == h.moments[i] && AtMost(h.moments[i], s.tables);
    if h.torn {
      var a: nat, b: nat, v: nat :| Split(s, a, b, v);
      assert Split(n, a, b, v) && Outdated(n, a);
    } else if h.missed {
      var a :| Outdated(s, a);
      var i :| Pivot(s, i);
      assert Outdated(n, a);
      if Read(s, t) {
        assert Pivot(n, i);
      } else {
        assert Split(n, a, t, s.tables[t]);
      }
    } else if Read(s, t) {
      assert h.moments[|h.moments| - 1] == s.tables;
      assert Outdated(n, t) && Pivot(n, |h.moments| - 1);
    }
  }

  lemma ReadKeepsWatched(s: State)
    requires Watched(s) && s.worker.Reading? && |s.worker.seen| < TABLES
    ensures Watched(Next(s, ReadNext))
  {
    var h, n := s.past, Next(s, ReadNext);
    if h.torn {
      var a: nat, b: nat, v: nat :| Split(s, a, b, v);
      assert Split(n, a, b, v) && Outdated(n, a);
    } else if h.missed {
      var a :| Outdated(s, a);
      var i :| Pivot(s, i);
      assert Outdated(n, a) && Pivot(n, i);
    }
  }

  lemma StepKeepsWatched(s: State, step: Step)
    requires Watched(s)
    ensures Watched(Next(s, step))
  {
    match step {
      case Write(t) =>
        if t < TABLES && s.worker.Reading? {
          WriteKeepsWatched(s, t);
        }
      case Notify =>
        var n := Next(s, step);
        if s.worker.Reading? {
          assert forall a :: Outdated(s, a) ==> Outdated(n, a);
          assert forall i :: Pivot(s, i) ==> Pivot(n, i);
          assert forall a, b, v :: Split(s, a, b, v) ==> Split(n, a, b, v);
        }
      case ReadNext =>
        if s.worker.Reading? && |s.worker.seen| < TABLES {
          ReadKeepsWatched(s);
        }
      case _ =>
    }
  }

  lemma StepKeepsInv(s: State, step: Step)
    requires Inv(s)
    ensures Inv(Next(s, step)) && AtLeast(Next(s, step).published, s.published)
  {
    hide Fresh, Booked, Watched, Next, AtLeast;
    StepKeepsFresh(s, step);
    StepKeepsBooked(s, step);
    StepKeepsWatched(s, step);
  }

  lemma {:induction false} RunKeepsInv(s: State, steps: seq<Step>)
    requires Inv(s)
    ensures Inv(Exec(s, steps))
    ensures AtLeast(Exec(s, steps).published, s.published)
    decreases |steps|
  {
    if steps != [] {
      StepKeepsInv(s, steps[0]);
      RunKeepsInv(Next(s, steps[0]), steps[1..]);
    }
  }

  /** Whenever the channel is empty and the worker idle, every table in the published snapshot is at least
      as new as at the last notification, unless the last reload failed. */
  lemma NoUpdateIsLost(steps: seq<Step>)
    ensures var s := Exec(INIT, steps);
      Quiet(s) && !s.past.lastReloadFailed ==> AtLeast(s.published, s.past.notified)
  {
    RunKeepsInv(INIT, steps);
  }

  /** At any time, failed reloads or not: the snapshot is behind the last notification exactly when some table
      was written after its last good read and that write was then notified. */
  lemma BehindExactlyWhenOwed(steps: seq<Step>)
    ensures var s := Exec(INIT, steps);
      AtLeast(s.published, s.past.notified) <==> s.past.owed == {}
  {
    RunKeepsInv(INIT, steps);
    var s := Exec(INIT, steps);
    if t: nat :| t < TABLES && s.published[t] < s.past.notified[t] {
      assert t in s.past.owed;
    }
  }

  lemma {:induction false} ExecAppend(s: State, p: seq<Step>, q: seq<Step>)
    ensures Exec(s, p + q) == Exec(Exec(s, p), q)
    decreases |p|
  {
    if p == [] {
      assert p + q == q;
    } else {
      assert (p + q)[1..] == p[1..] + q;
      ExecAppend(Next(s, p[0]), p[1..], q);
    }
  }

  /** Published versions never go back, between any two moments of any run. */
  lemma SnapshotsNeverGoBack(earlier: seq<Step>, later: seq<Step>)
    ensures AtLeast(Exec(INIT, earlier + later).published, Exec(INIT, earlier).published)
  {
    ExecAppend(INIT, earlier, later);
    RunKeepsInv(INIT, earlier);
    RunKeepsInv(Exec(INIT, earlier), later);
  }

  /** A failed reload consumes its token: the update stays unpublished until somebody notifies again. */
  lemma FailedReloadLosesItsToken()
    ensures var s := Exec(INIT, [Write(0), Notify, Receive, FailRead]);
      Quiet(s) && !AtLeast(s.published, s.past.notified)
  {
    var s1 := Exec(INIT, [Write(0), Notify, Receive, FailRead]);
    var a := Next(INIT, Write(0));
    var b := Next(a, Notify);
    assert s1 == Next(Next(b, Receive), FailRead);
    assert s1.published[0] == 0 && s1.past.notified[0] == 1;
  }

  // ----- the worker catches up on its own -----

  function Repeat(step: Step, n: nat): seq<Step> {
    seq(n, _ => step)
  }

  function FinishReload(s: State): seq<Step> {
    if s.worker.Reading? && |s.worker.seen| <= TABLES
    then Repeat(ReadNext, TABLES - |s.worker.seen|) + [Publish] else []
  }

  /** Finish the reload in progress, then serve the token if there is one. */
  function CatchUp(s: State): seq<Step> {
    FinishReload(s) + (if s.token then [Receive] + Repeat(ReadNext, TABLES) + [Publish] else [])
  }

  lemma {:induction false} ReadsFinish(s: State, n: nat)
    requires Inv(s) && s.worker.Reading? && n == TABLES - |s.worker.seen|
    ensures var t := Exec(s, Repeat(ReadNext, n) + [Publish]);
      && t.worker.Idle? && t.token == s.token && t.past.notified == s.past.notified && !t.past.lastReloadFailed && Inv(t)
    decreases n
  {
    var steps := Repeat(ReadNext, n) + [Publish];
    StepKeepsInv(s, steps[0]);
    if n == 0 {
      assert steps == [Publish];
      assert Exec(s, steps) == Next(s, Publish);
    } else {
      assert steps[0] == ReadNext && steps[1..] == Repeat(ReadNext, n - 1) + [Publish];
      ReadsFinish(Next(s, ReadNext), n - 1);
    }
  }

  lemma TokenIsServed(s: State)
    requires Inv(s) && s.worker.Idle? && s.token
    ensures var t := Exec(s, [Receive] + Repeat(ReadNext, TABLES) + [Publish]);
      Quiet(t) && t.past.notified == s.past.notified && !t.past.lastReloadFailed && Inv(t)
  {
    hide Fresh, Booked, Watched;
    var steps := [Receive] + Repeat(ReadNext, TABLES) + [Publish];
    StepKeepsInv(s, Receive);
    assert steps[0] == Receive && steps[1..] == Repeat(ReadNext, TABLES) + [Publish];
    ReadsFinish(Next(s, Receive), TABLES);
  }

  lemma QuietIsUpToDate(s: State)
    requires Inv(s) && Quiet(s) && !s.past.lastReloadFailed
    ensures AtLeast(s.published, s.past.notified)
  {
  }

  /** From every reachable state the worker needs at most eleven steps of its own, none of them failing,
      to publish everything notified so far; a stopped worker or a failed reload aside, nothing waits
      for a further notification. */
  lemma WorkerCatchesUp(s: State)
    requires Inv(s) && !s.worker.Stopped? && (s.worker.Idle? && !s.token ==> !s.past.lastReloadFailed)
    ensures |CatchUp(s)| <= 11
    ensures var t := Exec(s, CatchUp(s));
      Quiet(t) && t.past.notified == s.past.notified && AtLeast(t.published, s.past.notified)
  {
    hide AtLeast, AtMost, PrefixOf;
    var first := FinishReload(s);
    if s.worker.Reading? {
      ReadsFinish(s, TABLES - |s.worker.seen|);
    }
    hide Fresh, Booked, Watched, Next;
    var mid := Exec(s, first);
    assert Inv(mid) && mid.worker.Idle? && mid.token == s.token && mid.past.notified == s.past.notified;
    var second := if s.token then [Receive] + Repeat(ReadNext, TABLES) + [Publish] else [];
    ExecAppend(s, first, second);
    if s.token {
      TokenIsServed(mid);
    }
    QuietIsUpToDate(Exec(mid, second));
  }

  // ----- is a snapshot a moment of the tables? -----

  /** What a reload has read is the tables as they stood at one moment since it began, exactly unless some table
      was written after being read and then another was written before being read. */
  lemma TornExactlyWhen(steps: seq<Step>)
    ensures var s := Exec(INIT, steps);
      s.worker.Reading? && |s.worker.seen| == TABLES ==> (s.worker.seen in s.past.moments <==> !s.past.torn)
  {
    RunKeepsInv(INIT, steps);
    var s := Exec(INIT, steps);
    if s.worker.Reading? && |s.worker.seen| == TABLES {
      if s.past.torn {
        var a: nat, b: nat, v: nat :| Split(s, a, b, v);
      } else if s.past.missed {
        var i: nat :| Pivot(s, i);
        assert s.worker.seen == s.past.moments[i];
      } else {
        assert s.worker.seen == s.tables == s.past.moments[|s.past.moments| - 1];
      }
    }
  }

  /** In particular, with at most one write since the reload began it has read the tables as they were when it
      began, or as they are now. */
  lemma OneWriteCannotTear(steps: seq<Step>)
    ensures var s := Exec(INIT, steps);
      s.worker.Reading? && |s.worker.seen| == TABLES && 1 <= |s.past.moments| <= 2 ==>
        s.worker.seen == s.past.moments[0] || s.worker.seen == s.tables
  {
    RunKeepsInv(INIT, steps);
    TornExactlyWhen(steps);
  }

  /** Nor can any number of writes to one table, like a round of health checks. */
  lemma {:induction false} OneTableCannotTear(s: State, steps: seq<Step>, table: nat)
    requires !s.past.torn && (s.worker.Reading? && s.past.missed ==> Read(s, table))
    requires forall i :: 0 <= i < |steps| && steps[i].Write? ==> steps[i].table == table
    ensures !Exec(s, steps).past.torn
    decreases |steps|
  {
    if steps != [] {
      OneTableCannotTear(Next(s, steps[0]), steps[1..], table);
    }
  }

  const TEARING := [Notify, Receive, ReadNext, Write(0), Write(1), ReadNext, ReadNext, ReadNext, Publish]

  /** Two writes can: this run publishes the second write without the first, a combination the tables
      were never in. */
  lemma TwoWritesCanTear()
    ensures Exec(INIT, TEARING).published == [0, 1, 0, 0]
    ensures forall n :: 0 <= n <= |TEARING| ==> Exec(INIT, TEARING[..n]).tables != [0, 1, 0, 0]
  {
    TearingPublishes();
    forall n | 0 <= n <= |TEARING|
      ensures Exec(INIT, TEARING[..n]).tables != [0, 1, 0, 0]
    {
      TablesAfter(n);
    }
  }

  lemma TearingBegins()
    ensures var s := Exec(INIT, TEARING[..5]);
      s.worker == Reading([0]) && s.tables == [1, 1, 0, 0]
  {
    var p, q := [Notify, Receive, ReadNext], [Write(0), Write(1)];
    var s := Exec(INIT, p);
    assert s == Next(Next(Next(INIT, Notify), Receive), ReadNext);
    assert s.worker == Reading([0]) && s.tables == ZERO;
    assert Exec(s, q) == Next(Next(s, Write(0)), Write(1));
    assert TEARING[..5] == p + q;
    ExecAppend(INIT, p, q);
  }

  /** Left alone, a reload publishes what it has read followed by the rest of the tables. */
  lemma {:induction false} RestIsRead(s: State, n: nat)
    requires s.worker.Reading? && |s.worker.seen| + n == TABLES
    ensures Exec(s, Repeat(ReadNext, n) + [Publish]).published == s.worker.seen + s.tables[|s.worker.seen|..]
    decreases n
  {
    var steps := Repeat(ReadNext, n) + [Publish];
    if n == 0 {
      assert steps == [Publish];
      assert Exec(s, steps) == Next(s, Publish);
    } else {
      assert steps[0] == ReadNext && steps[1..] == Repeat(ReadNext, n - 1) + [Publish];
      RestIsRead(Next(s, ReadNext), n - 1);
    }
  }

  lemma TearingPublishes()
    ensures Exec(INIT, TEARING).published == [0, 1, 0, 0]
  {
    TearingBegins();
    var s := Exec(INIT, TEARING[..5]);
    var r := Repeat(ReadNext, 3) + [Publish];
    assert TEARING == TEARING[..5] + r;
    ExecAppend(INIT, TEARING[..5], r);
    RestIsRead(s, 3);
  }

  lemma {:induction false} WritesOnly(s: State, steps: seq<Step>)
    requires forall i :: 0 <= i < |steps| ==> !steps[i].Write?
    ensures Exec(s, steps).tables == s.tables
    decreases |steps|
  {
    if steps != [] {
      WritesOnly(Next(s, steps[0]), steps[1..]);
    }
  }

  lemma TablesAfter(n: nat)
    requires n <= |TEARING|
    ensures Exec(INIT, TEARING[..n]).tables != [0, 1, 0, 0]
  {
    if n <= 3 {
      WritesOnly(INIT, TEARING[..n]);
    } else {
      var s := Exec(INIT, TEARING[..3]);
      WritesOnly(INIT, TEARING[..3]);
      assert TEARING[..n] == TEARING[..3] + ([Write(0)] + TEARING[4..n]);
      ExecAppend(INIT, TEARING[..3], [Write(0)] + TEARING[4..n]);
      ExecAppend(s, [Write(0)], TEARING[4..n]);
      TableOnlyGrows(Next(s, Write(0)), TEARING[4..n]);
    }
  }

  lemma {:induction false} TableOnlyGrows(s: State, steps: seq<Step>)
    ensures Exec(s, steps).tables[0] >= s.tables[0]
    decreases |steps|
  {
    if steps != [] {
      TableOnlyGrows(Next(s, steps[0]), steps[1..]);
    }
  }
}
