/** `matvec_simd<R>(f64 const*, f64 const*, f64*, int_constant<8>)`: an
    8-column row spans two 256-bit registers, against the input halves `in_1`
    and `in_2`. Bulk batches of 2 rows, then at most one single row. */
module F64Cols8 {
  import opened Optional
  import opened Indices
  import opened Layout
  import opened Intrinsics
  import opened Unrolling
  import opened Steps

  /** The batch lambdas this overload defines. */
  const Sizes: set<nat> := {2, 1}

  /** `in_1 = _mm256_loadu_pd(in_data)`, `in_2 = _mm256_loadu_pd(in_data + 4)`,
      kept side by side: lanes 0 .. 3 are `in_1`, lanes 4 .. 7 are `in_2`. */
  function Prologue(vec: seq<Num>): (r: Option<seq<Num>>)
    ensures r.Some? ==> |r.value| == 8
  {
    var in1 :- Load(vec, 0, 4);
    var in2 :- Load(vec, 4, 4);
    Some(in1 + in2)
  }

  /** One row's partial products folded to four lanes by one multiply and one
      fused multiply-add, as batch_2 does. */
  function FoldFma(reg: seq<Num>, m1: seq<Num>, m2: seq<Num>): (r: seq<Num>)
    requires |reg| == 8 && |m1| == 4 && |m2| == 4
    ensures |r| == 4
  {
    Fmadd(reg[4..], m2, Mul(reg[..4], m1))
  }

  /** The register `sums` that batch_2(i) stores. */
  function Batch2Sums(mat: seq<Num>, reg: seq<Num>, i: int): (r: Option<seq<Num>>)
    requires |reg| == 8
    ensures r.Some? ==> |r.value| == 2
  {
    var m11 :- Load(mat, 16 * i, 4);
    var m12 :- Load(mat, 16 * i + 4, 4);
    var m21 :- Load(mat, 16 * i + 8, 4);
    var m22 :- Load(mat, 16 * i + 12, 4);
    var h := Hadd256Pd(FoldFma(reg, m11, m12), FoldFma(reg, m21, m22));
    Some(Add(Extract128(h, 1), Cast128(h)))
  }

  /** `batch_2(i)`. */
  function Batch2(mat: seq<Num>, reg: seq<Num>, out: seq<Num>, i: int): Option<seq<Num>>
    requires |reg| == 8
  {
    var s :- Batch2Sums(mat, reg, i);
    Store(out, 2 * i, s)
  }

  /** The value batch_1(i) writes: two products added lane-wise, then reduced. */
  function Batch1Sum(mat: seq<Num>, reg: seq<Num>, i: int): Option<Num>
    requires |reg| == 8
  {
    var m11 :- Load(mat, 8 * i, 4);
    var m12 :- Load(mat, 8 * i + 4, 4);
    var c := Add(Mul(reg[..4], m11), Mul(reg[4..], m12));
    var s := Add(Extract128(c, 1), Cast128(c));
    Some(s[0] + s[1])
  }

  /** `batch_1(i)`. */
  function Batch1(mat: seq<Num>, reg: seq<Num>, out: seq<Num>, i: int): Option<seq<Num>>
    requires |reg| == 8
  {
    var s :- Batch1Sum(mat, reg, i);
    Store(out, i, [s])
  }

  /** The lambda `batch_<size>`; there is none for other sizes. */
  function RunBatch(size: nat, mat: seq<Num>, reg: seq<Num>, out: seq<Num>, i: int): Option<seq<Num>>
    requires |reg| == 8
  {
    if size == 2 then Batch2(mat, reg, out, i)
    else if size == 1 then Batch1(mat, reg, out, i)
    else None
  }

  /** The body: `unroll<UnrollNum, 0, R/2>(batch_2)`, then batch_1(R - 1) when R is odd. */
  function Schedule(R: nat): seq<Step> {
    PairLadder(R)
  }

  lemma PrologueLoads(vec: seq<Num>)
    requires |vec| == 8
    ensures Prologue(vec) == Some(vec)
  {
    assert vec[0..4] + vec[4..8] == vec;
  }

  /** Row `row`, split into halves m1 and m2 at base = 8·row, folded against the
      two input halves: the four lanes sum to the row's product, whether folded
      with a fused multiply-add or with a plain add. */
  lemma HalfRows(mat: seq<Num>, vec: seq<Num>, R: nat, row: int, base: int, m1: seq<Num>, m2: seq<Num>)
    requires |mat| == R * 8 && |vec| == 8 && 0 <= row < R && base == row * 8
    requires base + 8 <= |mat|
    requires m1 == mat[base..base + 4] && m2 == mat[base + 4..base + 8]
    ensures Sum(FoldFma(vec, m1, m2)) == RowDot(mat, vec, R, 8, row)
    ensures Add(Mul(vec[..4], m1), Mul(vec[4..], m2)) == FoldFma(vec, m1, m2)
  {
    RowDotIsSum(mat, vec, R, 8, row);
    var p := Products(mat, base, vec, 8);
    Sum8(p);
    FoldSum(vec, m1, m2);
    assert m1[0] == mat[base] && m1[1] == mat[base + 1] && m1[2] == mat[base + 2] && m1[3] == mat[base + 3];
    assert m2[0] == mat[base + 4] && m2[1] == mat[base + 5] && m2[2] == mat[base + 6] && m2[3] == mat[base + 7];
    AddIsFold(vec, m1, m2);
  }

  /** The four lanes of the fold add up to all eight column products. */
  lemma FoldSum(vec: seq<Num>, m1: seq<Num>, m2: seq<Num>)
    requires |vec| == 8 && |m1| == 4 && |m2| == 4
    ensures Sum(FoldFma(vec, m1, m2))
         == m1[0] * vec[0] + m1[1] * vec[1] + m1[2] * vec[2] + m1[3] * vec[3]
          + m2[0] * vec[4] + m2[1] * vec[5] + m2[2] * vec[6] + m2[3] * vec[7]
  {
    var a := FoldFma(vec, m1, m2);
    Sum4(a);
    assert a[0] == vec[4] * m2[0] + vec[0] * m1[0];
    assert a[1] == vec[5] * m2[1] + vec[1] * m1[1];
    assert a[2] == vec[6] * m2[2] + vec[2] * m1[2];
    assert a[3] == vec[7] * m2[3] + vec[3] * m1[3];
  }

  /** The plain add of batch_1 gives the same four lanes as the fused fold of batch_2. */
  lemma AddIsFold(vec: seq<Num>, m1: seq<Num>, m2: seq<Num>)
    requires |vec| == 8 && |m1| == 4 && |m2| == 4
    ensures Add(Mul(vec[..4], m1), Mul(vec[4..], m2)) == FoldFma(vec, m1, m2)
  {
    var a, b := Add(Mul(vec[..4], m1), Mul(vec[4..], m2)), FoldFma(vec, m1, m2);
    forall k | 0 <= k < 4 ensures a[k] == b[k] {
      assert a[k] == vec[k] * m1[k] + vec[4 + k] * m2[k];
      assert b[k] == vec[4 + k] * m2[k] + vec[k] * m1[k];
    }
  }

  /** batch_2(i) leaves the products of rows 2i and 2i+1 in its two lanes. */
  lemma Batch2Exact(mat: seq<Num>, vec: seq<Num>, R: nat, i: int)
    requires |mat| == R * 8 && |vec| == 8
    requires 0 <= i && 2 * i + 2 <= R
    ensures Batch2Sums(mat, vec, i) == Some([RowDot(mat, vec, R, 8, 2 * i), RowDot(mat, vec, R, 8, 2 * i + 1)])
  {
    var m11, m12 := mat[16 * i..16 * i + 4], mat[16 * i + 4..16 * i + 8];
    var m21, m22 := mat[16 * i + 8..16 * i + 12], mat[16 * i + 12..16 * i + 16];
    HalfRows(mat, vec, R, 2 * i, 16 * i, m11, m12);
    HalfRows(mat, vec, R, 2 * i + 1, 16 * i + 8, m21, m22);
    HaddPdReduce(FoldFma(vec, m11, m12), FoldFma(vec, m21, m22));
  }

  /** batch_1(i) writes the product of row i. */
  lemma Batch1Exact(mat: seq<Num>, vec: seq<Num>, R: nat, i: int)
    requires |mat| == R * 8 && |vec| == 8
    requires 0 <= i < R
    ensures Batch1Sum(mat, vec, i) == Some(RowDot(mat, vec, R, 8, i))
  {
    var m11, m12 := mat[8 * i..8 * i + 4], mat[8 * i + 4..8 * i + 8];
    HalfRows(mat, vec, R, i, 8 * i, m11, m12);
    HalvesReduce(FoldFma(vec, m11, m12));
  }

  lemma Batch2Writes(mat: seq<Num>, vec: seq<Num>, R: nat, out: seq<Num>, i: int)
    requires |mat| == R * 8 && |vec| == 8 && |out| == R
    requires 0 <= i && 2 * i + 2 <= R
    ensures var r := Batch2(mat, vec, out, i);
      r.Some? && Updated(out, r.value, mat, vec, R, 8, Range(2 * i, 2 * i + 2))
  {
    Batch2Exact(mat, vec, R, i);
    var v := Batch2Sums(mat, vec, i).value;
    RowDots2(v, mat, vec, R, 8, 2 * i);
    assert Batch2(mat, vec, out, i) == Store(out, 2 * i, v);
    StoreRows(out, 2 * i, 2 * i + 2, v, mat, vec, R, 8);
  }

  lemma Batch1Writes(mat: seq<Num>, vec: seq<Num>, R: nat, out: seq<Num>, i: int)
    requires |mat| == R * 8 && |vec| == 8 && |out| == R
    requires 0 <= i < R
    ensures var r := Batch1(mat, vec, out, i);
      r.Some? && Updated(out, r.value, mat, vec, R, 8, Range(i, i + 1))
  {
    Batch1Exact(mat, vec, R, i);
    StoreRows(out, i, i + 1, [Batch1Sum(mat, vec, i).value], mat, vec, R, 8);
  }

  /** Each batch lambda, called on rows inside [0, R) with the prologue's
      registers, succeeds and overwrites exactly the rows it owns with their
      exact products. */
  lemma RunBatchWrites(size: nat, mat: seq<Num>, vec: seq<Num>, R: nat, out: seq<Num>, i: int)
    requires |mat| == R * 8 && |vec| == 8 && |out| == R
    requires size in Sizes && 0 <= size * i && size * i + size <= R
    ensures var r := RunBatch(size, mat, vec, out, i);
      r.Some? && Updated(out, r.value, mat, vec, R, 8, Rows(Batch(size, i)))
  {
    if size == 2 {
      assert Rows(Batch(size, i)) == Range(2 * i, 2 * i + 2);
      Batch2Writes(mat, vec, R, out, i);
    } else {
      assert size == 1;
      assert Rows(Batch(size, i)) == Range(i, i + 1);
      Batch1Writes(mat, vec, R, out, i);
    }
  }

  /** The ladder writes every row of [0, R) exactly once, in ascending order. */
  lemma ScheduleCovers(R: nat)
    ensures Writes(Schedule(R)) == Range(0, R)
  {
    PairLadderCovers(R);
  }

  /** The ladder only calls the lambdas this overload defines. */
  lemma ScheduleSizes(R: nat)
    ensures UsesSizes(Schedule(R), Sizes)
  {
  }
}
