/** `matvec_simd<R>(f32 const*, f32 const*, f32*, int_constant<4>)`: the
    4-lane input is loaded into both halves of a 256-bit register, so one load
    covers two rows. Bulk batches of 4 rows, then single rows. */
module F32Cols4 {
  import opened Optional
  import opened Indices
  import opened Layout
  import opened Intrinsics
  import opened Unrolling
  import opened Steps

  /** The batch lambdas this overload defines. */
  const Sizes: set<nat> := {4, 1}

  /** `in = _mm256_loadu2_m128(in_data, in_data)`: the input twice. */
  function Prologue(vec: seq<Num>): (r: Option<seq<Num>>)
    ensures r.Some? ==> |r.value| == 8
  {
    Load2(vec, 0, 0, 4)
  }

  /** The register f4 that batch_4(i) stores. */
  function Batch4Sums(mat: seq<Num>, reg: seq<Num>, i: int): (r: Option<seq<Num>>)
    requires |reg| == 8
    ensures r.Some? ==> |r.value| == 4
  {
    var m1 :- Load(mat, 16 * i, 8);
    var m2 :- Load(mat, 16 * i + 8, 8);
    var h := Hadd256Ps(Mul(m1, reg), Mul(m2, reg));
    Some(Add(Shuffle(h, h, [0, 4, 2, 6]), Shuffle(h, h, [1, 5, 3, 7])))
  }

  /** `batch_4(i)`. */
  function Batch4(mat: seq<Num>, reg: seq<Num>, out: seq<Num>, i: int): Option<seq<Num>>
    requires |reg| == 8
  {
    var f4 :- Batch4Sums(mat, reg, i);
    Store(out, 4 * i, f4)
  }

  /** The register f4 of batch_1(i) after its last addition; this lambda reads
      the input from memory, not from the `in` register. */
  function Batch1Sums(mat: seq<Num>, vec: seq<Num>, i: int): (r: Option<seq<Num>>)
    ensures r.Some? ==> |r.value| == 4
  {
    var m :- Load(mat, 4 * i, 4);
    var v :- Load(vec, 0, 4);
    var f4 := Mul(v, m);
    var f4_2 := Add(f4, MoveHDup(f4));
    Some(Add(MoveHL(f4_2, f4_2), f4_2))
  }

  /** `batch_1(i)`: lane 0 extracted to out[i]. */
  function Batch1(mat: seq<Num>, vec: seq<Num>, out: seq<Num>, i: int): Option<seq<Num>> {
    var f4 :- Batch1Sums(mat, vec, i);
    Store(out, i, [f4[0]])
  }

  /** The lambda `batch_<size>`; there is none for other sizes. */
  function RunBatch(size: nat, mat: seq<Num>, vec: seq<Num>, reg: seq<Num>, out: seq<Num>, i: int): Option<seq<Num>>
    requires |reg| == 8
  {
    if size == 4 then Batch4(mat, reg, out, i)
    else if size == 1 then Batch1(mat, vec, out, i)
    else None
  }

  /** The body: `unroll<UnrollNum, 0, R/4>(batch_4)`, then batch_1 on rows
      2·(R/2) - 2 and 2·(R/2) - 1 when R % 4 >= 2, then batch_1(R - 1) when R is odd. */
  function Schedule(R: nat): seq<Step> {
    Batches(4, Unroll(UnrollNum, 0, R / 4))
      + LastPairByRows(R)
      + LastRow(R)
  }

  /** The reduction tree of batch_4 on two 8-lane product vectors, each holding
      two rows: the shuffles put the four row sums back in row order. */
  lemma Batch4Tree(p1: seq<Num>, p2: seq<Num>)
    requires |p1| == 8 && |p2| == 8
    ensures var h := Hadd256Ps(p1, p2);
      Add(Shuffle(h, h, [0, 4, 2, 6]), Shuffle(h, h, [1, 5, 3, 7]))
        == [Sum(p1[..4]), Sum(p1[4..]), Sum(p2[..4]), Sum(p2[4..])]
  {
    var h := Hadd256Ps(p1, p2);
    var f4 := Add(Shuffle(h, h, [0, 4, 2, 6]), Shuffle(h, h, [1, 5, 3, 7]));
    assert f4[0] == h[0] + h[1] && f4[1] == h[4] + h[5] && f4[2] == h[2] + h[3] && f4[3] == h[6] + h[7];
    Sum4(p1[..4]);
    Sum4(p1[4..]);
    Sum4(p2[..4]);
    Sum4(p2[4..]);
    assert f4[0] == Sum(p1[..4]) && f4[1] == Sum(p1[4..]) && f4[2] == Sum(p2[..4]) && f4[3] == Sum(p2[4..]);
  }

  /** The reduction tree of batch_1: lane 0 ends up with the sum of all four lanes. */
  lemma Batch1Tree(p: seq<Num>)
    requires |p| == 4
    ensures var f4_2 := Add(p, MoveHDup(p));
      Add(MoveHL(f4_2, f4_2), f4_2)[0] == Sum(p)
  {
    Sum4(p);
  }

  /** batch_4(i) leaves the 4-term sums of rows 4i .. 4i+3 in lanes 0 .. 3, in order. */
  lemma Batch4Exact(mat: seq<Num>, vec: seq<Num>, R: nat, i: int)
    requires |mat| == R * 4 && |vec| == 4
    requires 0 <= i && 4 * i + 4 <= R
    ensures Batch4Sums(mat, vec + vec, i)
         == Some([RowDot(mat, vec, R, 4, 4 * i), RowDot(mat, vec, R, 4, 4 * i + 1),
                  RowDot(mat, vec, R, 4, 4 * i + 2), RowDot(mat, vec, R, 4, 4 * i + 3)])
  {
    LoadMulTwice(mat, 16 * i, vec, 4);
    LoadMulTwice(mat, 16 * i + 8, vec, 4);
    var p1 := Mul(Load(mat, 16 * i, 8).value, vec + vec);
    var p2 := Mul(Load(mat, 16 * i + 8, 8).value, vec + vec);
    Batch4Tree(p1, p2);
    RowDotSumAt(mat, vec, R, 4, 4 * i, 16 * i);
    RowDotSumAt(mat, vec, R, 4, 4 * i + 1, 16 * i + 4);
    RowDotSumAt(mat, vec, R, 4, 4 * i + 2, 16 * i + 8);
    RowDotSumAt(mat, vec, R, 4, 4 * i + 3, 16 * i + 12);
  }

  /** batch_1(i) leaves the 4-term sum of row i in lane 0. */
  lemma Batch1Exact(mat: seq<Num>, vec: seq<Num>, R: nat, i: int)
    requires |mat| == R * 4 && |vec| == 4
    requires 0 <= i < R
    ensures var r := Batch1Sums(mat, vec, i);
      r.Some? && r.value[0] == RowDot(mat, vec, R, 4, i)
  {
    LoadMulRev(mat, 4 * i, vec, 4);
    assert vec[0..4] == vec;
    Batch1Tree(Products(mat, 4 * i, vec, 4));
    RowDotIsSum(mat, vec, R, 4, i);
  }

  lemma Batch4Writes(mat: seq<Num>, vec: seq<Num>, R: nat, out: seq<Num>, i: int)
    requires |mat| == R * 4 && |vec| == 4 && |out| == R
    requires 0 <= i && 4 * i + 4 <= R
    ensures var r := Batch4(mat, vec + vec, out, i);
      r.Some? && Updated(out, r.value, mat, vec, R, 4, Range(4 * i, 4 * i + 4))
  {
    Batch4Exact(mat, vec, R, i);
    var v := Batch4Sums(mat, vec + vec, i).value;
    RowDots4(v, mat, vec, R, 4, 4 * i);
    assert Batch4(mat, vec + vec, out, i) == Store(out, 4 * i, v);
    StoreRows(out, 4 * i, 4 * i + 4, v, mat, vec, R, 4);
  }

  lemma Batch1Writes(mat: seq<Num>, vec: seq<Num>, R: nat, out: seq<Num>, i: int)
    requires |mat| == R * 4 && |vec| == 4 && |out| == R
    requires 0 <= i < R
    ensures var r := Batch1(mat, vec, out, i);
      r.Some? && Updated(out, r.value, mat, vec, R, 4, Range(i, i + 1))
  {
    Batch1Exact(mat, vec, R, i);
    StoreRows(out, i, i + 1, [Batch1Sums(mat, vec, i).value[0]], mat, vec, R, 4);
  }

  /** Each batch lambda, called on rows inside [0, R) with the prologue's
      register, succeeds and overwrites exactly the rows it owns with their
      exact products. */
  lemma RunBatchWrites(size: nat, mat: seq<Num>, vec: seq<Num>, R: nat, out: seq<Num>, i: int)
    requires |mat| == R * 4 && |vec| == 4 && |out| == R
    requires size in Sizes && 0 <= size * i && size * i + size <= R
    ensures var r := RunBatch(size, mat, vec, vec + vec, out, i);
      r.Some? && Updated(out, r.value, mat, vec, R, 4, Rows(Batch(size, i)))
  {
    if size == 4 {
      assert Rows(Batch(size, i)) == Range(4 * i, 4 * i + 4);
      Batch4Writes(mat, vec, R, out, i);
    } else {
      assert size == 1;
      assert Rows(Batch(size, i)) == Range(i, i + 1);
      Batch1Writes(mat, vec, R, out, i);
    }
  }

  /** The ladder writes every row of [0, R) exactly once, in ascending order. */
  lemma ScheduleCovers(R: nat)
    ensures Writes(Schedule(R)) == Range(0, R)
  {
    var q := R / 4;
    WritesThree(Batches(4, Unroll(UnrollNum, 0, q)), LastPairByRows(R), LastRow(R));
    WritesBulk(4, q);
    LastPairByRowsWrites(R);
    LastRowWrites(R);
    LadderArith(R);
    RangeAppend(0, 4 * q, 2 * (R / 2));
    RangeAppend(0, 2 * (R / 2), R);
  }

  /** The ladder only calls the lambdas this overload defines. */
  lemma ScheduleSizes(R: nat)
    ensures UsesSizes(Schedule(R), Sizes)
  {
  }
}
