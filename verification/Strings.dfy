/** Byte-wise string order and sorting, as Go's sort.Strings uses them. */
module Strings {

  predicate Below(a: string, b: string)
    decreases |b|
  {
    b != [] && (a == [] || a[0] < b[0] || (a[0] == b[0] && Below(a[1..], b[1..])))
  }

  /** One string is below another when it is a proper prefix of it, or smaller at the first place they differ. */
  lemma {:induction false} BelowMeans(a: string, b: string)
    ensures Below(a, b) <==>
      exists k :: 0 <= k <= |a| && k < |b| && a[..k] == b[..k] && (k == |a| || a[k] < b[k])
    decreases |b|
  {
    if b != [] && a != [] && a[0] == b[0] {
      BelowMeans(a[1..], b[1..]);
      assert a == [a[0]] + a[1..] && b == [b[0]] + b[1..];
      if k :| 0 <= k <= |a[1..]| && k < |b[1..]| && a[1..][..k] == b[1..][..k] && (k == |a[1..]| || a[1..][k] < b[1..][k]) {
        assert a[..k + 1] == [a[0]] + a[1..][..k] && b[..k + 1] == [b[0]] + b[1..][..k];
      }
      if k :| 0 <= k <= |a| && k < |b| && a[..k] == b[..k] && (k == |a| || a[k] < b[k]) {
        assert k > 0;
        assert a[1..][..k - 1] == a[..k][1..] && b[1..][..k - 1] == b[..k][1..];
      }
    } else if b != [] {
      assert a[..0] == b[..0];
      forall k | 0 < k <= |a| && k < |b| ensures a[..k] != b[..k] {
        assert a[..k][0] == a[0] && b[..k][0] == b[0];
      }
    }
  }

  predicate StrictlySorted(ss: seq<string>) {
    forall i, j :: 0 <= i < j < |ss| ==> Below(ss[i], ss[j])
  }

  lemma {:induction false} BelowTransitive(a: string, b: string, c: string)
    requires Below(a, b) && Below(b, c)
    ensures Below(a, c)
    decreases |c|
  {
    if a != [] && a[0] == b[0] && b[0] == c[0] {
      BelowTransitive(a[1..], b[1..], c[1..]);
    }
  }

  lemma {:induction false} BelowIsTotal(a: string, b: string)
    ensures Below(a, b) || a == b || Below(b, a)
    decreases |b|
  {
    if a != [] && b != [] && a[0] == b[0] {
      BelowIsTotal(a[1..], b[1..]);
      assert a == [a[0]] + a[1..] && b == [b[0]] + b[1..];
    }
  }

  lemma {:induction false} BelowIsStrict(a: string, b: string)
    requires Below(a, b)
    ensures a != b && !Below(b, a)
    decreases |b|
  {
    if a != [] && a[0] == b[0] {
      BelowIsStrict(a[1..], b[1..]);
    }
  }

  function Insert(ss: seq<string>, x: string): (r: seq<string>)
    requires StrictlySorted(ss) && x !in ss
    ensures StrictlySorted(r)
    ensures forall y :: y in r <==> y in ss || y == x
  {
    if ss == [] then [x]
    else if Below(x, ss[0]) then
      assert StrictlySorted([x] + ss) by {
        forall j | 0 < j < |ss| ensures Below(x, ss[j]) {
          BelowTransitive(x, ss[0], ss[j]);
        }
      }
      [x] + ss
    else
      assert Below(ss[0], x) by {
        BelowIsTotal(x, ss[0]);
      }
      var tail := Insert(ss[1..], x);
      assert ss == [ss[0]] + ss[1..];
      assert forall j :: 0 <= j < |tail| ==> tail[j] in tail;
      assert forall y :: y in ss[1..] ==> Below(ss[0], y);
      [ss[0]] + tail
  }

  /** A sorted list without repeats is determined by its elements. */
  lemma {:induction false} SortedListIsUnique(a: seq<string>, b: seq<string>)
    requires StrictlySorted(a) && StrictlySorted(b)
    requires forall x :: x in a <==> x in b
    ensures a == b
    decreases |a|
  {
    assert b != [] ==> b[0] in b && b[0] in a;
    if a != [] {
      assert a[0] in a && a[0] in b;
      var j :| 0 <= j < |b| && b[j] == a[0];
      assert b[0] in b && b[0] in a;
      var i :| 0 <= i < |a| && a[i] == b[0];
      if i > 0 && j > 0 {
        BelowIsStrict(a[0], a[i]);
        assert false;
      }
      var ta, tb := a[1..], b[1..];
      assert a == [a[0]] + ta && b == [b[0]] + tb;
      forall x
        ensures x in ta <==> x in tb
      {
        if x in ta {
          var k :| 0 <= k < |ta| && ta[k] == x;
          assert a[k + 1] == x;
          BelowIsStrict(a[0], a[k + 1]);
          assert x in a && x in b;
        }
        if x in tb {
          var k :| 0 <= k < |tb| && tb[k] == x;
          assert b[k + 1] == x;
          BelowIsStrict(b[0], b[k + 1]);
          assert x in b && x in a;
        }
      }
      SortedListIsUnique(ta, tb);
    }
  }
}
