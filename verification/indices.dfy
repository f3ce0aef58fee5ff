/** Ascending runs of integers: the index sets the kernels must cover and the
    order in which the unroll combinators visit them. */
module Indices {

  /** a, a+1, ..., b-1; empty when b <= a. */
  function Range(a: int, b: int): (r: seq<int>)
    ensures |r| == if b <= a then 0 else b - a
    ensures forall k :: 0 <= k < |r| ==> r[k] == a + k
  {
    seq(if b <= a then 0 else b - a, k => a + k)
  }

  /** Two adjacent runs join into one. */
  lemma RangeAppend(a: int, b: int, c: int)
    requires a <= b <= c
    ensures Range(a, b) + Range(b, c) == Range(a, c)
  {
    var l, m, r := Range(a, b), Range(b, c), Range(a, c);
    assert |l + m| == |r|;
    forall k | 0 <= k < |r|
      ensures (l + m)[k] == r[k]
    {
      if k < |l| {
        assert (l + m)[k] == l[k];
      } else {
        assert (l + m)[k] == m[k - |l|];
      }
    }
  }

  /** Two non-empty runs of the same length are equal exactly when they start at the same place. */
  lemma RangeEqual(a: int, b: int, len: int)
    ensures Range(a, a + len) == Range(b, b + len) <==> len <= 0 || a == b
  {
    if len > 0 && Range(a, a + len) == Range(b, b + len) {
      assert Range(a, a + len)[0] == a;
      assert Range(b, b + len)[0] == b;
    }
  }

  /** Membership in a run is membership in the half-open interval. */
  lemma InRange(a: int, b: int, x: int)
    ensures x in Range(a, b) <==> a <= x < b
  {
    if a <= x < b {
      assert Range(a, b)[x - a] == x;
    }
  }
}
