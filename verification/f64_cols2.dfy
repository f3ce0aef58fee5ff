/** `matvec_simd<R>(f64 const*, f64 const*, f64*, int_constant<2>)`: the two
    input values are loaded into both halves of a 256-bit register, so one
    4-lane load covers two rows. The body splits three ways on R: batches of 4
    rows when 4 divides R; for R = 1, 5 or 9, batches of 2 rows (after loading
    the 128-bit register `in_2`); otherwise batches of 4 rows and at most one
    batch of 2. A single row closes odd R. */
module F64Cols2 {
  import opened Optional
  import opened Indices
  import opened Layout
  import opened Intrinsics
  import opened Unrolling
  import opened Steps

  /** The batch lambdas this overload defines. */
  const Sizes: set<nat> := {4, 2, 1}

  /** `in = _mm256_loadu2_m128d(in_data, in_data)`: the input twice. */
  function Prologue(vec: seq<Num>): (r: Option<seq<Num>>)
    ensures r.Some? ==> |r.value| == 4
  {
    Load2(vec, 0, 0, 2)
  }

  /** `in_2 = _mm_loadu_pd(in_data)`, assigned only on the ladder rungs that call batch_2. */
  function LoadIn2(vec: seq<Num>): (r: Option<seq<Num>>)
    ensures r.Some? ==> |r.value| == 2
  {
    Load(vec, 0, 2)
  }

  /** The register that batch_4(i) stores: the horizontal add leaves the rows in
      the order 0, 2, 1, 3, and the scalar swap of lanes 1 and 2 restores it. */
  function Batch4Sums(mat: seq<Num>, reg: seq<Num>, i: int): (r: Option<seq<Num>>)
    requires |reg| == 4
    ensures r.Some? ==> |r.value| == 4
  {
    var m12 :- Load(mat, 8 * i, 4);
    var m34 :- Load(mat, 8 * i + 4, 4);
    var h := Hadd256Pd(Mul(reg, m12), Mul(reg, m34));
    Some([h[0], h[2], h[1], h[3]])
  }

  /** `batch_4(i)`. */
  function Batch4(mat: seq<Num>, reg: seq<Num>, out: seq<Num>, i: int): Option<seq<Num>>
    requires |reg| == 4
  {
    var v :- Batch4Sums(mat, reg, i);
    Store(out, 4 * i, v)
  }

  /** One row of batch_2: two matrix lanes times `in_2`, added to their swap; lane 0. */
  function PairSum(mat: seq<Num>, in2: seq<Num>, off: int): Option<Num>
    requires |in2| == 2
  {
    var d :- Load(mat, off, 2);
    var p := Mul(d, in2);
    Some(Add(p, PermutePd(p, 1))[0])
  }

  /** `batch_2(i)`: reads the register `in_2`, which holds nothing (None) until
      the ladder assigns it; stores row 2i before loading row 2i+1. */
  function Batch2(mat: seq<Num>, in2: Option<seq<Num>>, out: seq<Num>, i: int): Option<seq<Num>>
    requires in2.Some? ==> |in2.value| == 2
  {
    var r2 :- in2;
    var w0 :- PairSum(mat, r2, 4 * i);
    var out1 :- Store(out, 2 * i, [w0]);
    var w1 :- PairSum(mat, r2, 4 * i + 2);
    Store(out1, 2 * i + 1, [w1])
  }

  /** The value batch_1(i) writes; it loads the input from memory. */
  function Batch1Sum(mat: seq<Num>, vec: seq<Num>, i: int): Option<Num> {
    var d :- Load(mat, 2 * i, 2);
    var v :- Load(vec, 0, 2);
    var p := Mul(d, v);
    Some(p[0] + p[1])
  }

  /** `batch_1(i)`. */
  function Batch1(mat: seq<Num>, vec: seq<Num>, out: seq<Num>, i: int): Option<seq<Num>> {
    var s :- Batch1Sum(mat, vec, i);
    Store(out, i, [s])
  }

  /** The lambda `batch_<size>`; there is none for other sizes. */
  function RunBatch(size: nat, mat: seq<Num>, vec: seq<Num>, reg: seq<Num>, in2: Option<seq<Num>>,
                    out: seq<Num>, i: int): Option<seq<Num>>
    requires |reg| == 4 && (in2.Some? ==> |in2.value| == 2)
  {
    if size == 4 then Batch4(mat, reg, out, i)
    else if size == 2 then Batch2(mat, in2, out, i)
    else if size == 1 then Batch1(mat, vec, out, i)
    else None
  }

  /** The three-way `if constexpr` split of the body, before the closing batch_1. */
  function Split(R: nat): seq<Step> {
    if R % 4 == 0 then
      Batches(4, Unroll(UnrollNum, 0, R / 4))
    else if R % 4 == 1 && R < 12 then
      [Step.LoadIn2] + Batches(2, Unroll(UnrollNum, 0, R / 2))
    else
      Batches(4, Unroll(UnrollNum, 0, R / 4))
        + (if R % 4 >= 2 then [Step.LoadIn2, Batch(2, R / 2 - 1)] else [])
  }

  /** The body: the split, then batch_1(R - 1) when R is odd. */
  function Schedule(R: nat): seq<Step> {
    Split(R) + LastRow(R)
  }

  lemma PrologueTwice(vec: seq<Num>)
    requires |vec| == 2
    ensures Prologue(vec) == Some(vec + vec) && LoadIn2(vec) == Some(vec)
  {
    assert vec[0..2] == vec;
  }

  /** batch_4(i) leaves the products of rows 4i .. 4i+3 in lanes 0 .. 3, in order. */
  lemma Batch4Exact(mat: seq<Num>, vec: seq<Num>, R: nat, i: int)
    requires |mat| == R * 2 && |vec| == 2
    requires 0 <= i && 4 * i + 4 <= R
    ensures var r := Batch4Sums(mat, vec + vec, i);
      r.Some? && IsRowDots(r.value, mat, vec, R, 2, 4 * i)
  {
    var reg := vec + vec;
    var m12 := Load(mat, 8 * i, 4).value;
    var m34 := Load(mat, 8 * i + 4, 4).value;
    var v := Batch4Sums(mat, reg, i).value;
    PairLane(mat, vec, R, 4 * i, m12, reg, 0);
    PairLane(mat, vec, R, 4 * i + 1, m12, reg, 2);
    PairLane(mat, vec, R, 4 * i + 2, m34, reg, 0);
    PairLane(mat, vec, R, 4 * i + 3, m34, reg, 2);
    RowDots4(v, mat, vec, R, 2, 4 * i);
  }

  /** One row of batch_2 is that row's product. */
  lemma PairSumExact(mat: seq<Num>, vec: seq<Num>, R: nat, row: int)
    requires |mat| == R * 2 && |vec| == 2 && 0 <= row < R
    ensures PairSum(mat, vec, 2 * row) == Some(RowDot(mat, vec, R, 2, row))
  {
    var d := Load(mat, 2 * row, 2).value;
    PairLane(mat, vec, R, row, d, vec, 0);
  }

  /** batch_1(i) writes the product of row i. */
  lemma Batch1Exact(mat: seq<Num>, vec: seq<Num>, R: nat, i: int)
    requires |mat| == R * 2 && |vec| == 2
    requires 0 <= i < R
    ensures Batch1Sum(mat, vec, i) == Some(RowDot(mat, vec, R, 2, i))
  {
    var d := Load(mat, 2 * i, 2).value;
    assert vec[0..2] == vec;
    PairLane(mat, vec, R, i, d, vec, 0);
  }

  lemma Batch4Writes(mat: seq<Num>, vec: seq<Num>, R: nat, out: seq<Num>, i: int)
    requires |mat| == R * 2 && |vec| == 2 && |out| == R
    requires 0 <= i && 4 * i + 4 <= R
    ensures var r := Batch4(mat, vec + vec, out, i);
      r.Some? && Updated(out, r.value, mat, vec, R, 2, Range(4 * i, 4 * i + 4))
  {
    Batch4Exact(mat, vec, R, i);
    var v := Batch4Sums(mat, vec + vec, i).value;
    assert Batch4(mat, vec + vec, out, i) == Store(out, 4 * i, v);
    StoreRows(out, 4 * i, 4 * i + 4, v, mat, vec, R, 2);
  }

  /** With `in_2` assigned, batch_2(i) overwrites rows 2i and 2i+1 with their products. */
  lemma Batch2Writes(mat: seq<Num>, vec: seq<Num>, R: nat, out: seq<Num>, i: int)
    requires |mat| == R * 2 && |vec| == 2 && |out| == R
    requires 0 <= i && 2 * i + 2 <= R
    ensures var r := Batch2(mat, Some(vec), out, i);
      r.Some? && Updated(out, r.value, mat, vec, R, 2, Range(2 * i, 2 * i + 2))
  {
    PairSumExact(mat, vec, R, 2 * i);
    PairSumExact(mat, vec, R, 2 * i + 1);
    StorePair(out, 2 * i, RowDot(mat, vec, R, 2, 2 * i), RowDot(mat, vec, R, 2, 2 * i + 1), mat, vec, R, 2);
  }

  /** Without `in_2`, batch_2 reads an unassigned register. */
  lemma Batch2NeedsIn2(mat: seq<Num>, out: seq<Num>, i: int)
    ensures Batch2(mat, None, out, i).None?
  {
  }

  lemma Batch1Writes(mat: seq<Num>, vec: seq<Num>, R: nat, out: seq<Num>, i: int)
    requires |mat| == R * 2 && |vec| == 2 && |out| == R
    requires 0 <= i < R
    ensures var r := Batch1(mat, vec, out, i);
      r.Some? && Updated(out, r.value, mat, vec, R, 2, Range(i, i + 1))
  {
    Batch1Exact(mat, vec, R, i);
    StoreRows(out, i, i + 1, [Batch1Sum(mat, vec, i).value], mat, vec, R, 2);
  }

  /** Each batch lambda, called on rows inside [0, R) with the prologue's
      register and `in_2` assigned, succeeds and overwrites exactly the rows it
      owns with their exact products. */
  lemma RunBatchWrites(size: nat, mat: seq<Num>, vec: seq<Num>, R: nat, out: seq<Num>, i: int)
    requires |mat| == R * 2 && |vec| == 2 && |out| == R
    requires size in Sizes && 0 <= size * i && size * i + size <= R
    ensures var r := RunBatch(size, mat, vec, vec + vec, Some(vec), out, i);
      r.Some? && Updated(out, r.value, mat, vec, R, 2, Rows(Batch(size, i)))
  {
    if size == 4 {
      assert Rows(Batch(size, i)) == Range(4 * i, 4 * i + 4);
      Batch4Writes(mat, vec, R, out, i);
    } else if size == 2 {
      assert Rows(Batch(size, i)) == Range(2 * i, 2 * i + 2);
      Batch2Writes(mat, vec, R, out, i);
    } else {
      assert size == 1;
      assert Rows(Batch(size, i)) == Range(i, i + 1);
      Batch1Writes(mat, vec, R, out, i);
    }
  }

  lemma ShortWrites(R: nat)
    ensures Writes([Step.LoadIn2] + Batches(2, Unroll(UnrollNum, 0, R / 2))) == Range(0, 2 * (R / 2))
  {
    WritesAppend([Step.LoadIn2], Batches(2, Unroll(UnrollNum, 0, R / 2)));
    WritesSingle(Step.LoadIn2);
    WritesBulk(2, R / 2);
  }

  lemma LongWrites(R: nat)
    requires R % 4 != 0
    ensures Writes(Batches(4, Unroll(UnrollNum, 0, R / 4))
                   + (if R % 4 >= 2 then [Step.LoadIn2, Batch(2, R / 2 - 1)] else []))
         == Range(0, 2 * (R / 2))
  {
    var q := R / 4;
    LadderArith(R);
    var tail: seq<Step> := if R % 4 >= 2 then [Step.LoadIn2, Batch(2, R / 2 - 1)] else [];
    WritesAppend(Batches(4, Unroll(UnrollNum, 0, q)), tail);
    WritesBulk(4, q);
    assert Writes(tail) == Range(4 * q, 2 * (R / 2)) by {
      if R % 4 >= 2 {
        WritesAppend([Step.LoadIn2], [Batch(2, R / 2 - 1)]);
        WritesSingle(Step.LoadIn2);
        WritesSingle(Batch(2, R / 2 - 1));
      }
    }
    RangeAppend(0, 4 * q, 2 * (R / 2));
  }

  /** Each of the three branches of the split writes rows 0 .. 2·(R/2) - 1 in order. */
  lemma SplitWrites(R: nat)
    ensures Writes(Split(R)) == Range(0, 2 * (R / 2))
  {
    if R % 4 == 0 {
      LadderArith(R);
      WritesBulk(4, R / 4);
    } else if R % 4 == 1 && R < 12 {
      ShortWrites(R);
    } else {
      LongWrites(R);
    }
  }

  /** The body writes every row of [0, R) exactly once, in ascending order. */
  lemma ScheduleCovers(R: nat)
    ensures Writes(Schedule(R)) == Range(0, R)
  {
    WritesAppend(Split(R), LastRow(R));
    SplitWrites(R);
    LastRowWrites(R);
    LadderArith(R);
    RangeAppend(0, 2 * (R / 2), R);
  }

  /** The body only calls the lambdas this overload defines. */
  lemma ScheduleSizes(R: nat)
    ensures UsesSizes(Schedule(R), Sizes)
  {
  }

  /** Every call of batch_2 comes after `in_2` has been assigned. */
  lemma ScheduleLoadsIn2(R: nat)
    ensures LoadedBefore(Schedule(R), 2, false)
  {
    var steps := Schedule(R);
    forall n | 0 <= n < |steps| && steps[n].Batch? && steps[n].size == 2
      ensures Step.LoadIn2 in steps[..n]
    {
      if R % 4 == 0 {
        assert false;
      } else if R % 4 == 1 && R < 12 {
        assert steps[..n][0] == steps[0] == Step.LoadIn2;
      } else {
        var bulk := Batches(4, Unroll(UnrollNum, 0, R / 4));
        assert n == |bulk| + 1;
        assert steps[..n][|bulk|] == Step.LoadIn2;
      }
    }
  }
}
