/** `matvec_simd<R>(f64 const*, f64 const*, f64*, int_constant<4>)`: a whole
    4-column row fits one 256-bit register. Bulk batches of 2 rows, then at
    most one single row. */
module F64Cols4 {
  import opened Optional
  import opened Indices
  import opened Layout
  import opened Intrinsics
  import opened Unrolling
  import opened Steps

  /** The batch lambdas this overload defines. */
  const Sizes: set<nat> := {2, 1}

  /** `in = _mm256_loadu_pd(in_data)`. */
  function Prologue(vec: seq<Num>): (r: Option<seq<Num>>)
    ensures r.Some? ==> |r.value| == 4
  {
    Load(vec, 0, 4)
  }

  /** The register `sums` that batch_2(i) stores. */
  function Batch2Sums(mat: seq<Num>, reg: seq<Num>, i: int): (r: Option<seq<Num>>)
    requires |reg| == 4
    ensures r.Some? ==> |r.value| == 2
  {
    var m1 :- Load(mat, 8 * i, 4);
    var m2 :- Load(mat, 8 * i + 4, 4);
    var h := Hadd256Pd(Mul(reg, m1), Mul(reg, m2));
    Some(Add(Extract128(h, 1), Cast128(h)))
  }

  /** `batch_2(i)`. */
  function Batch2(mat: seq<Num>, reg: seq<Num>, out: seq<Num>, i: int): Option<seq<Num>>
    requires |reg| == 4
  {
    var s :- Batch2Sums(mat, reg, i);
    Store(out, 2 * i, s)
  }

  /** The value batch_1(i) writes: the two lanes of `sums` added. */
  function Batch1Sum(mat: seq<Num>, reg: seq<Num>, i: int): Option<Num>
    requires |reg| == 4
  {
    var m :- Load(mat, 4 * i, 4);
    var p := Mul(reg, m);
    var s := Add(Extract128(p, 1), Cast128(p));
    Some(s[0] + s[1])
  }

  /** `batch_1(i)`. */
  function Batch1(mat: seq<Num>, reg: seq<Num>, out: seq<Num>, i: int): Option<seq<Num>>
    requires |reg| == 4
  {
    var s :- Batch1Sum(mat, reg, i);
    Store(out, i, [s])
  }

  /** The lambda `batch_<size>`; there is none for other sizes. */
  function RunBatch(size: nat, mat: seq<Num>, reg: seq<Num>, out: seq<Num>, i: int): Option<seq<Num>>
    requires |reg| == 4
  {
    if size == 2 then Batch2(mat, reg, out, i)
    else if size == 1 then Batch1(mat, reg, out, i)
    else None
  }

  /** The body: `unroll<UnrollNum, 0, R/2>(batch_2)`, then batch_1(R - 1) when R is odd. */
  function Schedule(R: nat): seq<Step> {
    PairLadder(R)
  }

  /** batch_2(i) leaves the products of rows 2i and 2i+1 in its two lanes. */
  lemma Batch2Exact(mat: seq<Num>, vec: seq<Num>, R: nat, i: int)
    requires |mat| == R * 4 && |vec| == 4
    requires 0 <= i && 2 * i + 2 <= R
    ensures Batch2Sums(mat, vec, i) == Some([RowDot(mat, vec, R, 4, 2 * i), RowDot(mat, vec, R, 4, 2 * i + 1)])
  {
    LoadMulRev(mat, 8 * i, vec, 4);
    LoadMulRev(mat, 8 * i + 4, vec, 4);
    HaddPdReduce(Products(mat, 8 * i, vec, 4), Products(mat, 8 * i + 4, vec, 4));
    RowDotSumAt(mat, vec, R, 4, 2 * i, 8 * i);
    RowDotSumAt(mat, vec, R, 4, 2 * i + 1, 8 * i + 4);
  }

  /** batch_1(i) writes the product of row i. */
  lemma Batch1Exact(mat: seq<Num>, vec: seq<Num>, R: nat, i: int)
    requires |mat| == R * 4 && |vec| == 4
    requires 0 <= i < R
    ensures Batch1Sum(mat, vec, i) == Some(RowDot(mat, vec, R, 4, i))
  {
    LoadMulRev(mat, 4 * i, vec, 4);
    HalvesReduce(Products(mat, 4 * i, vec, 4));
    RowDotIsSum(mat, vec, R, 4, i);
  }

  lemma Batch2Writes(mat: seq<Num>, vec: seq<Num>, R: nat, out: seq<Num>, i: int)
    requires |mat| == R * 4 && |vec| == 4 && |out| == R
    requires 0 <= i && 2 * i + 2 <= R
    ensures var r := Batch2(mat, vec, out, i);
      r.Some? && Updated(out, r.value, mat, vec, R, 4, Range(2 * i, 2 * i + 2))
  {
    Batch2Exact(mat, vec, R, i);
    var v := Batch2Sums(mat, vec, i).value;
    RowDots2(v, mat, vec, R, 4, 2 * i);
    assert Batch2(mat, vec, out, i) == Store(out, 2 * i, v);
    StoreRows(out, 2 * i, 2 * i + 2, v, mat, vec, R, 4);
  }

  lemma Batch1Writes(mat: seq<Num>, vec: seq<Num>, R: nat, out: seq<Num>, i: int)
    requires |mat| == R * 4 && |vec| == 4 && |out| == R
    requires 0 <= i < R
    ensures var r := Batch1(mat, vec, out, i);
      r.Some? && Updated(out, r.value, mat, vec, R, 4, Range(i, i + 1))
  {
    Batch1Exact(mat, vec, R, i);
    StoreRows(out, i, i + 1, [Batch1Sum(mat, vec, i).value], mat, vec, R, 4);
  }

  /** Each batch lambda, called on rows inside [0, R) with the prologue's
      register, succeeds and overwrites exactly the rows it owns with their
      exact products. */
  lemma RunBatchWrites(size: nat, mat: seq<Num>, vec: seq<Num>, R: nat, out: seq<Num>, i: int)
    requires |mat| == R * 4 && |vec| == 4 && |out| == R
    requires size in Sizes && 0 <= size * i && size * i + size <= R
    ensures var r := RunBatch(size, mat, vec, out, i);
      r.Some? && Updated(out, r.value, mat, vec, R, 4, Rows(Batch(size, i)))
  {
    if size == 2 {
      assert Rows(Batch(size, i)) == Range(2 * i, 2 * i + 2);
      Batch2Writes(mat, vec, R, out, i);
    } else {
      assert size == 1;
      assert Rows(Batch(size, i)) == Range(i, i + 1);
      Batch1Writes(mat, vec, R, out, i);
    }
  }

  /** The ladder writes every row of [0, R) exactly once, in ascending order. */
  lemma ScheduleCovers(R: nat)
    ensures Writes(Schedule(R)) == Range(0, R)
  {
    PairLadderCovers(R);
  }

  /** The ladder only calls the lambdas this overload defines. */
  lemma ScheduleSizes(R: nat)
    ensures UsesSizes(Schedule(R), Sizes)
  {
  }
}
