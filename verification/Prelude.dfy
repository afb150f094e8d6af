/** Small shared vocabulary: optional values and a little arithmetic. */
module Prelude {

  /** A Go pointer or map lookup that may be absent. */
  datatype Option<+T> = None | Some(value: T)

  /** A clock reading, in nanoseconds. */
  type Time = int

  function Max(a: int, b: int): int {
    if a < b then b else a
  }

  function OrZero(o: Option<int>): int {
    if o.Some? then o.value else 0
  }

  /** Positions below `n`, in increasing order. */
  predicate Rising(at: seq<nat>, n: nat) {
    (forall i :: 0 <= i < |at| ==> at[i] < n) && forall i, j :: 0 <= i < j < |at| ==> at[i] < at[j]
  }

  lemma MulMonotone(k: int, x: int, y: int)
    requires 0 <= k && x <= y
    ensures k * x <= k * y
  {
    assert k * y - k * x == k * (y - x);
  }

  /** A stretch `d` that holds `k` steps of length `c`, but not `n`. */
  lemma FewerSteps(k: int, n: int, c: int, d: int)
    requires c > 0 && k * c <= d < n * c
    ensures k < n
  {
    if k >= n {
      MulMonotone(c, n, k);
    }
  }
}
