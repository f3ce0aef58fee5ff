/** What a kernel body does, as a sequence of steps: calls of its batch
    lambdas and, in the 64-bit two-column kernel, the assignment of the `in_2`
    register. A step's footprint is the set of output rows it is meant to
    write; the kernels' ladders are proved to lay these footprints end to end
    over [0, R). */
module Steps {
  import opened Indices
  import opened Layout
  import opened Intrinsics
  import opened Optional
  import opened Unrolling

  /** `batch_<size>(index)`, or `in_2 = _mm_loadu_pd(in_data)`. */
  datatype Step = Batch(size: nat, index: int) | LoadIn2

  /** Rows a step is meant to write: batch_k(i) owns rows k·i .. k·i + k - 1. */
  function Rows(s: Step): seq<int> {
    match s
    case Batch(k, i) => Range(k * i, k * i + k)
    case LoadIn2 => []
  }

  /** Footprints of all steps, in execution order. */
  function Writes(steps: seq<Step>): seq<int>
    decreases |steps|
  {
    if |steps| == 0 then [] else Rows(steps[0]) + Writes(steps[1..])
  }

  /** One call of batch_k per index the unroll combinator produces. */
  function Batches(k: nat, idx: seq<int>): (r: seq<Step>)
    ensures |r| == |idx|
    ensures forall t :: 0 <= t < |idx| ==> r[t] == Batch(k, idx[t])
  {
    if |idx| == 0 then [] else [Batch(k, idx[0])] + Batches(k, idx[1..])
  }

  /** Every batch step uses one of the given batch sizes. */
  predicate UsesSizes(steps: seq<Step>, sizes: set<nat>) {
    forall n :: 0 <= n < |steps| && steps[n].Batch? ==> steps[n].size in sizes
  }

  lemma UsesSizesAppend(a: seq<Step>, b: seq<Step>, sizes: set<nat>)
    requires UsesSizes(a, sizes) && UsesSizes(b, sizes)
    ensures UsesSizes(a + b, sizes)
  {
    forall n | |a| <= n < |a + b| ensures (a + b)[n] == b[n - |a|] {
    }
  }

  /** Every batch step owns a row range inside [0, R). */
  predicate FitsRows(steps: seq<Step>, R: nat) {
    forall n :: 0 <= n < |steps| && steps[n].Batch? ==>
      0 <= steps[n].size * steps[n].index && steps[n].size * steps[n].index + steps[n].size <= R
  }

  /** Every call of batch_size comes after an `in_2` assignment (or `loaded` already holds). */
  predicate LoadedBefore(steps: seq<Step>, size: nat, loaded: bool) {
    forall n :: 0 <= n < |steps| && steps[n].Batch? && steps[n].size == size ==>
      loaded || LoadIn2 in steps[..n]
  }

  lemma {:induction false} WritesAppend(a: seq<Step>, b: seq<Step>)
    ensures Writes(a + b) == Writes(a) + Writes(b)
    decreases |a|
  {
    if |a| == 0 {
      assert a + b == b;
    } else {
      assert (a + b)[1..] == a[1..] + b;
      WritesAppend(a[1..], b);
    }
  }

  /** batch_k over the indices a .. b-1 owns exactly the rows k·a .. k·b - 1, in order. */
  lemma {:induction false} WritesBatches(k: nat, a: int, b: int)
    requires a <= b
    ensures Writes(Batches(k, Range(a, b))) == Range(k * a, k * b)
    decreases b - a
  {
    if a == b {
      assert k * a == k * b;
    } else {
      var steps := Batches(k, Range(a, b));
      assert steps[1..] == Batches(k, Range(a + 1, b)) by {
        assert Range(a, b)[1..] == Range(a + 1, b);
      }
      assert Writes(steps) == Range(k * a, k * a + k) + Writes(steps[1..]);
      WritesBatches(k, a + 1, b);
      ScaledSplit(k, a, b);
    }
  }

  lemma ScaledSplit(k: nat, a: int, b: int)
    requires a < b
    ensures Range(k * a, k * a + k) + Range(k * (a + 1), k * b) == Range(k * a, k * b)
  {
    var lo, hi := k * a, k * b;
    assert k * (a + 1) == lo + k;
    MulLeft(k, a + 1, b);
    RangeAppend(lo, lo + k, hi);
  }

  lemma MulLeft(k: nat, a: int, b: int)
    requires a <= b
    ensures k * a <= k * b
  {
    assert k * b - k * a == k * (b - a);
  }

  /** Footprints laid end to end over [0, R) put every batch step inside [0, R). */
  lemma CoveredStepsFit(steps: seq<Step>, R: nat)
    requires Writes(steps) == Range(0, R)
    requires forall n :: 0 <= n < |steps| && steps[n].Batch? ==> steps[n].size >= 1
    ensures FitsRows(steps, R)
  {
    StepsWithin(steps, 0, R);
  }

  /** Footprints laid end to end over [a, b) put every batch step inside [a, b). */
  lemma {:induction false} StepsWithin(steps: seq<Step>, a: int, b: int)
    requires Writes(steps) == Range(a, b)
    requires forall n :: 0 <= n < |steps| && steps[n].Batch? ==> steps[n].size >= 1
    ensures forall n :: 0 <= n < |steps| && steps[n].Batch? ==>
      a <= steps[n].size * steps[n].index && steps[n].size * steps[n].index + steps[n].size <= b
    decreases |steps|
  {
    if |steps| > 0 {
      var w, rest := Rows(steps[0]), Writes(steps[1..]);
      var all := Range(a, b);
      assert all == w + rest;
      var m := a + |w|;
      assert rest == all[|w|..];
      assert rest == Range(m, b);
      StepsWithin(steps[1..], m, b);
      if steps[0].Batch? {
        var k, i := steps[0].size, steps[0].index;
        assert w[0] == k * i;
        assert all[0] == a;
      }
      forall n | 0 < n < |steps| && steps[n].Batch?
        ensures m <= steps[n].size * steps[n].index && steps[n].size * steps[n].index + steps[n].size <= b
      {
        assert steps[n] == steps[1..][n - 1];
      }
    }
  }

  /** A covering step list built from nonzero batch sizes stays inside [0, R). */
  lemma CoveredSizesFit(steps: seq<Step>, sizes: set<nat>, R: nat)
    requires Writes(steps) == Range(0, R) && UsesSizes(steps, sizes) && 0 !in sizes
    ensures FitsRows(steps, R)
  {
    forall n | 0 <= n < |steps| && steps[n].Batch?
      ensures steps[n].size >= 1
    {
      assert steps[n].size in sizes;
    }
    CoveredStepsFit(steps, R);
  }

  /** out' is out with exactly the rows listed in ws replaced by their exact products. */
  predicate Updated(out: seq<Num>, out': seq<Num>, mat: seq<Num>, vec: seq<Num>, R: nat, C: nat, ws: seq<int>)
    requires |mat| == R * C && |vec| == C && |out| == R
  {
    && |out'| == R
    && forall x :: 0 <= x < R ==> out'[x] == if x in ws then RowDot(mat, vec, R, C, x) else out[x]
  }

  lemma UpdatedNothing(out: seq<Num>, mat: seq<Num>, vec: seq<Num>, R: nat, C: nat)
    requires |mat| == R * C && |vec| == C && |out| == R
    ensures Updated(out, out, mat, vec, R, C, [])
  {
  }

  /** Two successive updates compose into one over both footprints. */
  lemma UpdatedThen(o1: seq<Num>, o2: seq<Num>, o3: seq<Num>, mat: seq<Num>, vec: seq<Num>, R: nat, C: nat,
                    ws1: seq<int>, ws2: seq<int>)
    requires |mat| == R * C && |vec| == C && |o1| == R
    requires Updated(o1, o2, mat, vec, R, C, ws1)
    requires Updated(o2, o3, mat, vec, R, C, ws2)
    ensures Updated(o1, o3, mat, vec, R, C, ws1 + ws2)
  {
    forall x | 0 <= x < R
      ensures o3[x] == if x in ws1 + ws2 then RowDot(mat, vec, R, C, x) else o1[x]
    {
      assert x in ws1 + ws2 <==> x in ws1 || x in ws2;
    }
  }

  /** Storing exact row products v at off updates exactly the rows off .. off + |v| - 1. */
  lemma StoreRows(out: seq<Num>, off: int, end: int, v: seq<Num>, mat: seq<Num>, vec: seq<Num>, R: nat, C: nat)
    requires |mat| == R * C && |vec| == C && |out| == R
    requires 0 <= off && end == off + |v| && end <= R
    requires IsRowDots(v, mat, vec, R, C, off)
    ensures var r := Store(out, off, v);
      r.Some? && Updated(out, r.value, mat, vec, R, C, Range(off, end))
  {
    var out' := Store(out, off, v).value;
    forall x | 0 <= x < R
      ensures out'[x] == if x in Range(off, off + |v|) then RowDot(mat, vec, R, C, x) else out[x]
    {
      InRange(off, off + |v|, x);
      if off <= x < off + |v| {
        assert out'[x] == v[x - off];
      } else if x < off {
        assert out'[x] == out[..off][x];
      } else {
        assert out'[x] == out[off + |v|..][x - off - |v|];
      }
    }
  }

  /** Two scalar stores of exact row products at off and off + 1. */
  lemma StorePair(out: seq<Num>, off: int, a: Num, b: Num, mat: seq<Num>, vec: seq<Num>, R: nat, C: nat)
    requires |mat| == R * C && |vec| == C && |out| == R
    requires 0 <= off && off + 2 <= R
    requires a == RowDot(mat, vec, R, C, off) && b == RowDot(mat, vec, R, C, off + 1)
    ensures var o1 := Store(out, off, [a]);
      o1.Some? && var o2 := Store(o1.value, off + 1, [b]);
      o2.Some? && Updated(out, o2.value, mat, vec, R, C, Range(off, off + 2))
  {
    StoreRows(out, off, off + 1, [a], mat, vec, R, C);
    var o1 := Store(out, off, [a]).value;
    StoreRows(o1, off + 1, off + 2, [b], mat, vec, R, C);
    UpdatedThen(out, o1, Store(o1, off + 1, [b]).value, mat, vec, R, C, Range(off, off + 1), Range(off + 1, off + 2));
    RangeAppend(off, off + 1, off + 2);
  }

  lemma WritesSingle(s: Step)
    ensures Writes([s]) == Rows(s)
  {
    assert [s][1..] == [];
  }

  /** Footprints of a three-part ladder. */
  lemma WritesThree(a: seq<Step>, b: seq<Step>, c: seq<Step>)
    ensures Writes(a + b + c) == Writes(a) + Writes(b) + Writes(c)
  {
    WritesAppend(a + b, c);
    WritesAppend(a, b);
  }

  /** The bulk of a ladder: batch_k over unroll<1, 0, q>(…) owns rows 0 .. k·q - 1. */
  lemma WritesBulk(k: nat, q: nat)
    ensures Writes(Batches(k, Unroll(UnrollNum, 0, q))) == Range(0, k * q)
  {
    UnrollOneAscending(0, q);
    WritesBatches(k, 0, q);
  }

  /** How the `if constexpr` ladders split R into batches of 8, 4, 2 and 1 rows. */
  lemma LadderArith(R: nat)
    ensures R == 8 * (R / 8) + R % 8 && R == 4 * (R / 4) + R % 4 && R == 2 * (R / 2) + R % 2
    ensures R / 4 == 2 * (R / 8) + (if R % 8 >= 4 then 1 else 0) && R % 4 == R % 8 % 4
    ensures R / 2 == 2 * (R / 4) + (if R % 4 >= 2 then 1 else 0) && R % 2 == R % 4 % 2
  {
  }

  /** `if constexpr (R % 2 == 1) batch_1(R - 1)`: the closing rung shared by every kernel. */
  function LastRow(R: nat): seq<Step> {
    if R % 2 == 1 then [Batch(1, R - 1)] else []
  }

  /** `if constexpr (R % 4 >= 2)`: two batch_1 calls on rows 2·(R/2) - 2 and 2·(R/2) - 1. */
  function LastPairByRows(R: nat): seq<Step> {
    if R % 4 >= 2 then [Batch(1, (R / 2) * 2 - 2), Batch(1, (R / 2) * 2 - 1)] else []
  }

  lemma LastRowWrites(R: nat)
    ensures Writes(LastRow(R)) == Range(2 * (R / 2), R)
  {
    if R % 2 == 1 {
      WritesSingle(Batch(1, R - 1));
    }
  }

  lemma LastPairByRowsWrites(R: nat)
    ensures Writes(LastPairByRows(R)) == Range(4 * (R / 4), 2 * (R / 2))
  {
    LadderArith(R);
    if R % 4 >= 2 {
      var b := 4 * (R / 4);
      assert LastPairByRows(R) == [Batch(1, b)] + [Batch(1, b + 1)];
      WritesAppend([Batch(1, b)], [Batch(1, b + 1)]);
      WritesSingle(Batch(1, b));
      WritesSingle(Batch(1, b + 1));
      RangeAppend(b, b + 1, b + 2);
    }
  }

  /** `unroll<UnrollNum, 0, R/2>(batch_2)`, then batch_1(R - 1) when R is odd:
      the whole body of both 64-bit overloads with eight and four columns. */
  function PairLadder(R: nat): seq<Step> {
    Batches(2, Unroll(UnrollNum, 0, R / 2)) + LastRow(R)
  }

  /** The pair ladder writes every row of [0, R) exactly once, in ascending order. */
  lemma PairLadderCovers(R: nat)
    ensures Writes(PairLadder(R)) == Range(0, R)
  {
    var q := R / 2;
    WritesAppend(Batches(2, Unroll(UnrollNum, 0, q)), LastRow(R));
    WritesBulk(2, q);
    LastRowWrites(R);
    LadderArith(R);
    RangeAppend(0, 2 * q, R);
  }
}
