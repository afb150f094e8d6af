/** Weighted random choice among the candidates of highest priority: selectWeightedPriority of
    internal/proxy/router.go. */
module Selection {
  import opened Prelude
  import opened Catalog

  function MaxPriority(cands: seq<Candidate>): (m: int)
    requires cands != []
    ensures exists c :: c in cands && c.priority == m
    ensures forall c :: c in cands ==> c.priority <= m
  {
    var n := |cands| - 1;
    if n == 0 then cands[0].priority
    else
      var m := MaxPriority(cands[..n]);
      assert cands == cands[..n] + [cands[n]];
      if m < cands[n].priority then cands[n].priority else m
  }

  function OfPriority(cands: seq<Candidate>, priority: int): seq<Candidate> {
    if cands == [] then []
    else
      var rest := OfPriority(cands[..|cands| - 1], priority);
      if cands[|cands| - 1].priority == priority then rest + [cands[|cands| - 1]] else rest
  }

  function OfPositiveWeight(cands: seq<Candidate>): (r: seq<Candidate>)
    ensures Weighted(r)
  {
    if cands == [] then []
    else
      var rest := OfPositiveWeight(cands[..|cands| - 1]);
      if cands[|cands| - 1].weight > 0 then rest + [cands[|cands| - 1]] else rest
  }

  /** The candidates of positive weight among those of the highest priority. */
  function Pool(cands: seq<Candidate>): (r: seq<Candidate>)
    ensures Weighted(r)
  {
    if cands == [] then [] else OfPositiveWeight(OfPriority(cands, MaxPriority(cands)))
  }

  predicate Weighted(pool: seq<Candidate>) {
    forall i :: 0 <= i < |pool| ==> pool[i].weight > 0
  }

  /** The weight of the first `k` candidates. */
  function Upto(pool: seq<Candidate>, k: nat): int
    requires k <= |pool|
  {
    if k == 0 then 0 else Upto(pool, k - 1) + pool[k - 1].weight
  }

  function Total(pool: seq<Candidate>): int {
    Upto(pool, |pool|)
  }

  function PickAmong(pool: seq<Candidate>, k: nat, pick: int): (i: nat)
    requires k <= |pool| && 0 <= pick < Upto(pool, k)
    ensures i < k && Upto(pool, i) <= pick < Upto(pool, i + 1)
  {
    if pick >= Upto(pool, k - 1) then k - 1 else PickAmong(pool, k - 1, pick)
  }

  /** The position a pick selects: the pool laid out on a line, each candidate as long as its weight. */
  function PickIndex(pool: seq<Candidate>, pick: int): (i: nat)
    requires 0 <= pick < Total(pool)
    ensures i < |pool| && Upto(pool, i) <= pick < Upto(pool, i + 1)
  {
    PickAmong(pool, |pool|, pick)
  }

  // ----- sorting, with ties left open -----

  predicate Descending(cands: seq<Candidate>) {
    cands == [] || ((forall c :: c in cands ==> c.priority <= cands[0].priority) && Descending(cands[1..]))
  }

  function InsertByPriority(sorted: seq<Candidate>, c: Candidate): (r: seq<Candidate>)
    requires Descending(sorted)
    ensures Descending(r) && |r| == |sorted| + 1
    ensures forall x :: x in r ==> x in sorted || x == c
    ensures multiset(r) == multiset(sorted) + multiset{c}
  {
    if sorted == [] then [c]
    else if c.priority >= sorted[0].priority then
      assert ([c] + sorted)[1..] == sorted;
      [c] + sorted
    else
      var head, tail := sorted[0], InsertByPriority(sorted[1..], c);
      assert sorted == [head] + sorted[1..];
      assert ([head] + tail)[1..] == tail;
      [head] + tail
  }

  function SortByPriority(cands: seq<Candidate>): (r: seq<Candidate>)
    ensures Descending(r) && |r| == |cands|
    ensures multiset(r) == multiset(cands)
  {
    if cands == [] then []
    else
      assert cands == cands[..|cands| - 1] + [cands[|cands| - 1]];
      InsertByPriority(SortByPriority(cands[..|cands| - 1]), cands[|cands| - 1])
  }

  /** Stands for sort.Slice: descending priority, ties in an order its contract leaves open. */
  method SortSlice(a: array<Candidate>, n: nat)
    requires n <= a.Length
    modifies a
    ensures Descending(a[..n]) && multiset(a[..n]) == multiset(old(a[..n]))
  {
    var sorted := SortByPriority(a[..n]);
    forall i | 0 <= i < n {
      a[i] := sorted[i];
    }
    assert a[..n] == sorted;
  }

  // ----- the pool ignores the order of the candidates -----

  lemma CountLast(cands: seq<Candidate>, c: Candidate)
    requires cands != []
    ensures multiset(cands)[c]
         == multiset(cands[..|cands| - 1])[c] + if cands[|cands| - 1] == c then 1 else 0
  {
    assert cands == cands[..|cands| - 1] + [cands[|cands| - 1]];
  }

  lemma {:induction false} OfPriorityCounts(cands: seq<Candidate>, priority: int, c: Candidate)
    ensures multiset(OfPriority(cands, priority))[c] == if c.priority == priority then multiset(cands)[c] else 0
  {
    if cands != [] {
      OfPriorityCounts(cands[..|cands| - 1], priority, c);
      CountLast(cands, c);
    }
  }

  lemma {:induction false} OfPositiveWeightCounts(cands: seq<Candidate>, c: Candidate)
    ensures multiset(OfPositiveWeight(cands))[c] == if c.weight > 0 then multiset(cands)[c] else 0
  {
    if cands != [] {
      OfPositiveWeightCounts(cands[..|cands| - 1], c);
      CountLast(cands, c);
    }
  }

  lemma PoolCounts(cands: seq<Candidate>, c: Candidate)
    requires cands != []
    ensures multiset(Pool(cands))[c]
         == if c.priority == MaxPriority(cands) && c.weight > 0 then multiset(cands)[c] else 0
  {
    OfPriorityCounts(cands, MaxPriority(cands), c);
    OfPositiveWeightCounts(OfPriority(cands, MaxPriority(cands)), c);
  }

  /** Exactly which candidates are in the pool: no lower priority steps in when the top group has no
      positive weight. */
  lemma PoolHolds(cands: seq<Candidate>, c: Candidate)
    ensures c in Pool(cands) <==> c in cands && c.weight > 0 && forall x :: x in cands ==> x.priority <= c.priority
  {
    assert c in Pool(cands) <==> c in multiset(Pool(cands));
    assert c in cands <==> c in multiset(cands);
    if cands != [] {
      PoolCounts(cands, c);
    }
  }

  lemma MaxPriorityIgnoresOrder(a: seq<Candidate>, b: seq<Candidate>)
    requires multiset(a) == multiset(b) && a != [] && b != []
    ensures MaxPriority(a) == MaxPriority(b)
  {
    forall c
      ensures c in a <==> c in b
    {
      assert c in a <==> c in multiset(a);
      assert c in b <==> c in multiset(b);
    }
  }

  /** As multisets, the pools of two orderings of the same candidates agree. */
  lemma PoolIgnoresOrder(a: seq<Candidate>, b: seq<Candidate>)
    requires multiset(a) == multiset(b)
    ensures multiset(Pool(a)) == multiset(Pool(b))
  {
    assert |a| == |multiset(a)| == |multiset(b)| == |b|;
    if a != [] {
      MaxPriorityIgnoresOrder(a, b);
      forall c
        ensures multiset(Pool(a))[c] == multiset(Pool(b))[c]
      {
        PoolCounts(a, c);
        PoolCounts(b, c);
      }
    }
  }

  lemma {:induction false} UptoIsMonotone(pool: seq<Candidate>, i: nat, j: nat)
    requires Weighted(pool) && i <= j <= |pool|
    ensures Upto(pool, i) + (j - i) <= Upto(pool, j)
    decreases j
  {
    if i < j {
      UptoIsMonotone(pool, i, j - 1);
    }
  }

  lemma PickIndexIsUnique(pool: seq<Candidate>, pick: int, i: nat)
    requires Weighted(pool) && 0 <= pick < Total(pool) && i < |pool|
    ensures PickIndex(pool, pick) == i <==> Upto(pool, i) <= pick < Upto(pool, i + 1)
  {
    var k := PickIndex(pool, pick);
    if k < i {
      UptoIsMonotone(pool, k + 1, i);
    } else if i < k {
      UptoIsMonotone(pool, i + 1, k);
    }
  }

  // ----- the method -----

  /** The loops that collect the top group and then the pool with its total weight. */
  method CollectPool(a: array<Candidate>, n: nat) returns (pool: seq<Candidate>, totalWeight: int)
    requires 0 < n <= a.Length && Descending(a[..n])
    ensures pool == Pool(a[..n]) && totalWeight == Total(pool)
  {
    var order := a[..n];
    assert order[0] in order;
    var topPriority := a[0].priority;
    assert topPriority == MaxPriority(order);
    var topGroup: seq<Candidate> := [];
    for i := 0 to n
      invariant topGroup == OfPriority(order[..i], topPriority)
    {
      assert order[..i + 1][..i] == order[..i];
      if a[i].priority == topPriority {
        topGroup := topGroup + [a[i]];
      }
    }
    assert order[..n] == order;
    pool, totalWeight := [], 0;
    for i := 0 to |topGroup|
      invariant pool == OfPositiveWeight(topGroup[..i]) && totalWeight == Total(pool)
    {
      assert topGroup[..i + 1][..i] == topGroup[..i];
      if topGroup[i].weight > 0 {
        UptoIgnoresRest(pool, [topGroup[i]], |pool|);
        pool := pool + [topGroup[i]];
        totalWeight := totalWeight + topGroup[i].weight;
      }
    }
    assert topGroup[..|topGroup|] == topGroup;
  }

  lemma {:induction false} UptoIgnoresRest(a: seq<Candidate>, b: seq<Candidate>, k: nat)
    requires k <= |a|
    ensures Upto(a + b, k) == Upto(a, k)
  {
    if k > 0 {
      UptoIgnoresRest(a, b, k - 1);
    }
  }

  /** The cumulative walk. The return after the loop is never reached. */
  method WalkPool(pool: seq<Candidate>, pick: int) returns (c: Candidate)
    requires Weighted(pool) && 0 <= pick < Total(pool)
    ensures c == pool[PickIndex(pool, pick)]
  {
    var cumulative := 0;
    for i := 0 to |pool|
      invariant cumulative == Upto(pool, i) && cumulative <= pick
    {
      cumulative := cumulative + pool[i].weight;
      if pick < cumulative {
        PickIndexIsUnique(pool, pick, i);
        return pool[i];
      }
    }
    assert false;
  }

  /** `order` is how the sort happened to leave the candidates. */
  method SelectWeightedPriority(a: array<Candidate>, n: nat)
    returns (selected: Option<Candidate>, pick: int, ghost order: seq<Candidate>)
    requires 0 < n <= a.Length
    modifies a
    ensures multiset(order) == multiset(old(a[..n]))
    ensures selected.None? <==> Pool(order) == []
    ensures selected.Some? ==> 0 <= pick < Total(Pool(order))
    ensures selected.Some? ==> selected.value == Pool(order)[PickIndex(Pool(order), pick)]
  {
    SortSlice(a, n);
    order := a[..n];
    var pool, totalWeight := CollectPool(a, n);
    UptoIsMonotone(pool, 0, |pool|);
    if |pool| == 0 || totalWeight == 0 {
      return None, 0, order;
    }
    pick :| 0 <= pick < totalWeight;
    var c := WalkPool(pool, pick);
    selected := Some(c);
  }

  // ----- the law of selection -----

  /** How many of the first `n` picks select position `i`. */
  function PositionHits(pool: seq<Candidate>, i: nat, n: nat): nat
    requires n <= Total(pool)
    decreases n
  {
    if n == 0 then 0 else PositionHits(pool, i, n - 1) + if PickIndex(pool, n - 1) == i then 1 else 0
  }

  /** How many of the first `n` picks select the candidate `c`. */
  function CandidateHits(pool: seq<Candidate>, c: Candidate, n: nat): nat
    requires n <= Total(pool)
    decreases n
  {
    if n == 0 then 0 else CandidateHits(pool, c, n - 1) + if pool[PickIndex(pool, n - 1)] == c then 1 else 0
  }

  function Clamp(x: int, most: int): int {
    if x < 0 then 0 else if x > most then most else x
  }

  lemma {:induction false} PositionHitsUpTo(pool: seq<Candidate>, i: nat, n: nat)
    requires Weighted(pool) && i < |pool| && n <= Total(pool)
    ensures PositionHits(pool, i, n) == Clamp(n - Upto(pool, i), pool[i].weight)
    decreases n
  {
    if n == 0 {
      UptoIsMonotone(pool, 0, i);
    } else {
      PositionHitsUpTo(pool, i, n - 1);
      PickIndexIsUnique(pool, n - 1, i);
    }
  }

  /** Of the equally likely picks, exactly weight(i) select position i. */
  lemma WeightIsNumberOfPicks(pool: seq<Candidate>, i: nat)
    requires Weighted(pool) && i < |pool|
    ensures Total(pool) >= 0 && PositionHits(pool, i, Total(pool)) == pool[i].weight
  {
    UptoIsMonotone(pool, 0, |pool|);
    UptoIsMonotone(pool, i + 1, |pool|);
    PositionHitsUpTo(pool, i, Total(pool));
  }

  /** The weight of the copies of `c` among the first `k`. */
  function Mass(pool: seq<Candidate>, c: Candidate, k: nat): int
    requires k <= |pool|
  {
    if k == 0 then 0 else Mass(pool, c, k - 1) + if pool[k - 1] == c then c.weight else 0
  }

  lemma {:induction false} MassCountsCopies(pool: seq<Candidate>, c: Candidate, k: nat)
    requires k <= |pool|
    ensures Mass(pool, c, k) == multiset(pool[..k])[c] * c.weight
  {
    if k > 0 {
      MassCountsCopies(pool, c, k - 1);
      assert pool[..k] == pool[..k - 1] + [pool[k - 1]];
      var m := multiset(pool[..k - 1])[c];
      assert (m + 1) * c.weight == m * c.weight + c.weight;
    }
  }

  lemma {:induction false} HitsWithinPosition(pool: seq<Candidate>, c: Candidate, k: nat, n: nat)
    requires Weighted(pool) && k < |pool| && 0 <= Upto(pool, k) <= n <= Upto(pool, k + 1) <= Total(pool)
    ensures CandidateHits(pool, c, n)
         == CandidateHits(pool, c, Upto(pool, k)) + if pool[k] == c then n - Upto(pool, k) else 0
    decreases n
  {
    if n > Upto(pool, k) {
      PickIndexIsUnique(pool, n - 1, k);
      HitsWithinPosition(pool, c, k, n - 1);
    }
  }

  lemma {:induction false} HitsAreMass(pool: seq<Candidate>, c: Candidate, k: nat)
    requires Weighted(pool) && k <= |pool|
    ensures 0 <= Upto(pool, k) <= Total(pool)
    ensures CandidateHits(pool, c, Upto(pool, k)) == Mass(pool, c, k)
  {
    UptoIsMonotone(pool, 0, k);
    UptoIsMonotone(pool, k, |pool|);
    if k > 0 {
      HitsAreMass(pool, c, k - 1);
      HitsWithinPosition(pool, c, k - 1, Upto(pool, k));
    }
  }

  /** A candidate is selected by as many picks as its copies in the pool weigh together. */
  lemma CandidateHitsLaw(pool: seq<Candidate>, c: Candidate)
    requires Weighted(pool)
    ensures Total(pool) >= 0 && CandidateHits(pool, c, Total(pool)) == multiset(pool)[c] * c.weight
  {
    HitsAreMass(pool, c, |pool|);
    MassCountsCopies(pool, c, |pool|);
    assert pool[..|pool|] == pool;
  }

  function Without(b: seq<Candidate>, j: nat): seq<Candidate>
    requires j < |b|
  {
    b[..j] + b[j + 1..]
  }

  lemma {:induction false} UptoWithout(b: seq<Candidate>, j: nat, k: nat)
    requires j < |b| && k <= |b|
    ensures k <= j ==> Upto(Without(b, j), k) == Upto(b, k)
    ensures k > j ==> Upto(Without(b, j), k - 1) + b[j].weight == Upto(b, k)
  {
    if k > 0 {
      UptoWithout(b, j, k - 1);
    }
  }

  lemma MultisetWithout(b: seq<Candidate>, j: nat)
    requires j < |b|
    ensures multiset(Without(b, j)) == multiset(b) - multiset{b[j]}
  {
    assert b == b[..j] + [b[j]] + b[j + 1..];
  }

  lemma {:induction false} TotalIgnoresOrder(a: seq<Candidate>, b: seq<Candidate>)
    requires multiset(a) == multiset(b)
    ensures Total(a) == Total(b)
    decreases |a|
  {
    assert |a| == |multiset(a)| == |multiset(b)| == |b|;
    if a != [] {
      assert a[0] in multiset(a);
      var j :| 0 <= j < |b| && b[j] == a[0];
      UptoWithout(a, 0, |a|);
      UptoWithout(b, j, |b|);
      MultisetWithout(a, 0);
      MultisetWithout(b, j);
      TotalIgnoresOrder(Without(a, 0), Without(b, j));
    }
  }

  /** How the sort orders ties changes no candidate's chance: neither the number of picks that select
      it nor the number of picks there are. */
  lemma SelectionIgnoresTieOrder(a: seq<Candidate>, b: seq<Candidate>, c: Candidate)
    requires multiset(a) == multiset(b)
    ensures Total(Pool(a)) == Total(Pool(b)) >= 0
    ensures CandidateHits(Pool(a), c, Total(Pool(a))) == CandidateHits(Pool(b), c, Total(Pool(b)))
  {
    PoolIgnoresOrder(a, b);
    CandidateHitsLaw(Pool(a), c);
    CandidateHitsLaw(Pool(b), c);
    TotalIgnoresOrder(Pool(a), Pool(b));
  }
}
