/** `matvec_simd<R>(f32 const*, f32 const*, f32*, int_constant<8>)`: a whole
    8-column row fits one 256-bit register. Bulk batches of 4 rows, then at
    most one 2-row batch and one single row. */
module F32Cols8 {
  import opened Optional
  import opened Indices
  import opened Layout
  import opened Intrinsics
  import opened Unrolling
  import opened Steps

  /** The batch lambdas this overload defines. */
  const Sizes: set<nat> := {4, 2, 1}

  /** `in = _mm256_loadu_ps(in_data)`. */
  function Prologue(vec: seq<Num>): (r: Option<seq<Num>>)
    ensures r.Some? ==> |r.value| == 8
  {
    Load(vec, 0, 8)
  }

  /** The register f4 that batch_4(i) stores: the sums of rows 4i .. 4i+3. */
  function Batch4Sums(mat: seq<Num>, reg: seq<Num>, i: int): (r: Option<seq<Num>>)
    requires |reg| == 8
    ensures r.Some? ==> |r.value| == 4
  {
    var m1 :- Load(mat, 32 * i, 8);
    var m2 :- Load(mat, 32 * i + 8, 8);
    var m3 :- Load(mat, 32 * i + 16, 8);
    var m4 :- Load(mat, 32 * i + 24, 8);
    var h12 := Hadd256Ps(Mul(m1, reg), Mul(m2, reg));
    var h34 := Hadd256Ps(Mul(m3, reg), Mul(m4, reg));
    var h := Hadd256Ps(h12, h34);
    Some(Add(Extract128(h, 1), Cast128(h)))
  }

  /** `batch_4(i)`. */
  function Batch4(mat: seq<Num>, reg: seq<Num>, out: seq<Num>, i: int): Option<seq<Num>>
    requires |reg| == 8
  {
    var f4 :- Batch4Sums(mat, reg, i);
    Store(out, 4 * i, f4)
  }

  /** The register f4 of batch_2(i) after its final `_mm_hadd_ps`. */
  function Batch2Sums(mat: seq<Num>, reg: seq<Num>, i: int): (r: Option<seq<Num>>)
    requires |reg| == 8
    ensures r.Some? ==> |r.value| == 4
  {
    var m1 :- Load(mat, 16 * i, 8);
    var m2 :- Load(mat, 16 * i + 8, 8);
    var h := Hadd256Ps(Mul(m1, reg), Mul(m2, reg));
    var f4 := Add(Extract128(h, 1), Cast128(h));
    Some(Hadd128Ps(f4, f4))
  }

  /** `batch_2(i)`: lanes 0 and 1 extracted to out[2i] and out[2i+1]. */
  function Batch2(mat: seq<Num>, reg: seq<Num>, out: seq<Num>, i: int): Option<seq<Num>>
    requires |reg| == 8
  {
    var f4 :- Batch2Sums(mat, reg, i);
    var out1 :- Store(out, 2 * i, [f4[0]]);
    Store(out1, 2 * i + 1, [f4[1]])
  }

  /** The register f4 of batch_1(i) after its last addition. */
  function Batch1Sums(mat: seq<Num>, reg: seq<Num>, i: int): (r: Option<seq<Num>>)
    requires |reg| == 8
    ensures r.Some? ==> |r.value| == 4
  {
    var m :- Load(mat, 8 * i, 8);
    var p := Mul(m, reg);
    var f4 := Add(Extract128(p, 1), Cast128(p));
    var g := Add(f4, PermutePs(f4, 0x4E));
    Some(Add(g, MoveHDup(g)))
  }

  /** `batch_1(i)`: lane 0 extracted to out[i]. */
  function Batch1(mat: seq<Num>, reg: seq<Num>, out: seq<Num>, i: int): Option<seq<Num>>
    requires |reg| == 8
  {
    var f4 :- Batch1Sums(mat, reg, i);
    Store(out, i, [f4[0]])
  }

  /** The lambda `batch_<size>`; there is none for other sizes. */
  function RunBatch(size: nat, mat: seq<Num>, reg: seq<Num>, out: seq<Num>, i: int): Option<seq<Num>>
    requires |reg| == 8
  {
    if size == 4 then Batch4(mat, reg, out, i)
    else if size == 2 then Batch2(mat, reg, out, i)
    else if size == 1 then Batch1(mat, reg, out, i)
    else None
  }

  /** The body: `unroll<UnrollNum, 0, R/4>(batch_4)`, then batch_2(R/2 - 1) when
      R % 4 >= 2, then batch_1(R - 1) when R is odd. */
  function Schedule(R: nat): seq<Step> {
    Batches(4, Unroll(UnrollNum, 0, R / 4))
      + (if R % 4 >= 2 then [Batch(2, R / 2 - 1)] else [])
      + LastRow(R)
  }

  /** The reduction tree of batch_4 on four 8-lane product vectors: lane t of
      the final register is the sum of all eight lanes of the (t+1)-th vector. */
  lemma Batch4Tree(p1: seq<Num>, p2: seq<Num>, p3: seq<Num>, p4: seq<Num>)
    requires |p1| == 8 && |p2| == 8 && |p3| == 8 && |p4| == 8
    ensures var h := Hadd256Ps(Hadd256Ps(p1, p2), Hadd256Ps(p3, p4));
      Add(Extract128(h, 1), Cast128(h)) == [Sum(p1), Sum(p2), Sum(p3), Sum(p4)]
  {
    var h := Hadd256Ps(Hadd256Ps(p1, p2), Hadd256Ps(p3, p4));
    var f4 := Add(Extract128(h, 1), Cast128(h));
    assert f4[0] == h[4] + h[0] && f4[1] == h[5] + h[1] && f4[2] == h[6] + h[2] && f4[3] == h[7] + h[3];
    Sum8(p1);
    Sum8(p2);
    Sum8(p3);
    Sum8(p4);
    assert f4[0] == Sum(p1) && f4[1] == Sum(p2) && f4[2] == Sum(p3) && f4[3] == Sum(p4);
  }

  /** The reduction tree of batch_2: lanes 0 and 1 of the final register are the
      sums of the two product vectors. */
  lemma Batch2Tree(p1: seq<Num>, p2: seq<Num>)
    requires |p1| == 8 && |p2| == 8
    ensures var h := Hadd256Ps(p1, p2);
      var f4 := Add(Extract128(h, 1), Cast128(h));
      var g := Hadd128Ps(f4, f4);
      g[0] == Sum(p1) && g[1] == Sum(p2)
  {
    Sum8(p1);
    Sum8(p2);
  }

  /** The reduction tree of batch_1: lane 0 of the final register is the sum of
      the product vector. */
  lemma Batch1Tree(p: seq<Num>)
    requires |p| == 8
    ensures var f4 := Add(Extract128(p, 1), Cast128(p));
      var g := Add(f4, PermutePs(f4, 0x4E));
      Add(g, MoveHDup(g))[0] == Sum(p)
  {
    Sum8(p);
  }

  /** batch_4(i) leaves the full 8-term sums of rows 4i .. 4i+3 in lanes 0 .. 3, in order. */
  lemma Batch4Exact(mat: seq<Num>, vec: seq<Num>, R: nat, i: int)
    requires |mat| == R * 8 && |vec| == 8
    requires 0 <= i && 4 * i + 4 <= R
    ensures Batch4Sums(mat, vec, i)
         == Some([RowDot(mat, vec, R, 8, 4 * i), RowDot(mat, vec, R, 8, 4 * i + 1),
                  RowDot(mat, vec, R, 8, 4 * i + 2), RowDot(mat, vec, R, 8, 4 * i + 3)])
  {
    Batch4Register(mat, vec, i);
    Batch4Tree(Products(mat, 32 * i, vec, 8), Products(mat, 32 * i + 8, vec, 8),
               Products(mat, 32 * i + 16, vec, 8), Products(mat, 32 * i + 24, vec, 8));
    RowDotSumAt(mat, vec, R, 8, 4 * i, 32 * i);
    RowDotSumAt(mat, vec, R, 8, 4 * i + 1, 32 * i + 8);
    RowDotSumAt(mat, vec, R, 8, 4 * i + 2, 32 * i + 16);
    RowDotSumAt(mat, vec, R, 8, 4 * i + 3, 32 * i + 24);
  }

  /** batch_4(i) loads rows 4i to 4i+3 in full and reduces their lane products. */
  lemma Batch4Register(mat: seq<Num>, vec: seq<Num>, i: int)
    requires |vec| == 8 && 0 <= i && 32 * i + 32 <= |mat|
    ensures var h := Hadd256Ps(Hadd256Ps(Products(mat, 32 * i, vec, 8), Products(mat, 32 * i + 8, vec, 8)),
                               Hadd256Ps(Products(mat, 32 * i + 16, vec, 8), Products(mat, 32 * i + 24, vec, 8)));
      Batch4Sums(mat, vec, i) == Some(Add(Extract128(h, 1), Cast128(h)))
  {
    LoadMul(mat, 32 * i, vec, 8);
    LoadMul(mat, 32 * i + 8, vec, 8);
    LoadMul(mat, 32 * i + 16, vec, 8);
    LoadMul(mat, 32 * i + 24, vec, 8);
  }

  /** batch_2(i) leaves the sums of rows 2i and 2i+1 in lanes 0 and 1. */
  lemma Batch2Exact(mat: seq<Num>, vec: seq<Num>, R: nat, i: int)
    requires |mat| == R * 8 && |vec| == 8
    requires 0 <= i && 2 * i + 2 <= R
    ensures var r := Batch2Sums(mat, vec, i);
      r.Some? && r.value[0] == RowDot(mat, vec, R, 8, 2 * i) && r.value[1] == RowDot(mat, vec, R, 8, 2 * i + 1)
  {
    Batch2Register(mat, vec, i);
    Batch2Tree(Products(mat, 16 * i, vec, 8), Products(mat, 16 * i + 8, vec, 8));
    RowDotSumAt(mat, vec, R, 8, 2 * i, 16 * i);
    RowDotSumAt(mat, vec, R, 8, 2 * i + 1, 16 * i + 8);
  }

  /** batch_2(i) loads rows 2i and 2i+1 in full and reduces their lane products. */
  lemma Batch2Register(mat: seq<Num>, vec: seq<Num>, i: int)
    requires |vec| == 8 && 0 <= i && 16 * i + 16 <= |mat|
    ensures var h := Hadd256Ps(Products(mat, 16 * i, vec, 8), Products(mat, 16 * i + 8, vec, 8));
      var f4 := Add(Extract128(h, 1), Cast128(h));
      Batch2Sums(mat, vec, i) == Some(Hadd128Ps(f4, f4))
  {
    LoadMul(mat, 16 * i, vec, 8);
    LoadMul(mat, 16 * i + 8, vec, 8);
  }

  /** batch_1(i) leaves the full 8-term sum of row i in lane 0. */
  lemma Batch1Exact(mat: seq<Num>, vec: seq<Num>, R: nat, i: int)
    requires |mat| == R * 8 && |vec| == 8
    requires 0 <= i < R
    ensures var r := Batch1Sums(mat, vec, i);
      r.Some? && r.value[0] == RowDot(mat, vec, R, 8, i)
  {
    LoadMul(mat, 8 * i, vec, 8);
    Batch1Tree(Products(mat, 8 * i, vec, 8));
    RowDotIsSum(mat, vec, R, 8, i);
  }

  lemma Batch4Writes(mat: seq<Num>, vec: seq<Num>, R: nat, out: seq<Num>, i: int)
    requires |mat| == R * 8 && |vec| == 8 && |out| == R
    requires 0 <= i && 4 * i + 4 <= R
    ensures var r := Batch4(mat, vec, out, i);
      r.Some? && Updated(out, r.value, mat, vec, R, 8, Range(4 * i, 4 * i + 4))
  {
    Batch4Exact(mat, vec, R, i);
    var v := Batch4Sums(mat, vec, i).value;
    RowDots4(v, mat, vec, R, 8, 4 * i);
    assert Batch4(mat, vec, out, i) == Store(out, 4 * i, v);
    StoreRows(out, 4 * i, 4 * i + 4, v, mat, vec, R, 8);
  }

  lemma Batch2Writes(mat: seq<Num>, vec: seq<Num>, R: nat, out: seq<Num>, i: int)
    requires |mat| == R * 8 && |vec| == 8 && |out| == R
    requires 0 <= i && 2 * i + 2 <= R
    ensures var r := Batch2(mat, vec, out, i);
      r.Some? && Updated(out, r.value, mat, vec, R, 8, Range(2 * i, 2 * i + 2))
  {
    Batch2Exact(mat, vec, R, i);
    var f4 := Batch2Sums(mat, vec, i).value;
    StorePair(out, 2 * i, f4[0], f4[1], mat, vec, R, 8);
  }

  lemma Batch1Writes(mat: seq<Num>, vec: seq<Num>, R: nat, out: seq<Num>, i: int)
    requires |mat| == R * 8 && |vec| == 8 && |out| == R
    requires 0 <= i < R
    ensures var r := Batch1(mat, vec, out, i);
      r.Some? && Updated(out, r.value, mat, vec, R, 8, Range(i, i + 1))
  {
    Batch1Exact(mat, vec, R, i);
    StoreRows(out, i, i + 1, [Batch1Sums(mat, vec, i).value[0]], mat, vec, R, 8);
  }

  /** Each batch lambda, called on rows inside [0, R), succeeds and overwrites
      exactly the rows it owns with their exact products. */
  lemma RunBatchWrites(size: nat, mat: seq<Num>, vec: seq<Num>, R: nat, out: seq<Num>, i: int)
    requires |mat| == R * 8 && |vec| == 8 && |out| == R
    requires size in Sizes && 0 <= size * i && size * i + size <= R
    ensures var r := RunBatch(size, mat, vec, out, i);
      r.Some? && Updated(out, r.value, mat, vec, R, 8, Rows(Batch(size, i)))
  {
    if size == 4 {
      assert Rows(Batch(size, i)) == Range(4 * i, 4 * i + 4);
      Batch4Writes(mat, vec, R, out, i);
    } else if size == 2 {
      assert Rows(Batch(size, i)) == Range(2 * i, 2 * i + 2);
      Batch2Writes(mat, vec, R, out, i);
    } else {
      assert size == 1;
      assert Rows(Batch(size, i)) == Range(i, i + 1);
      Batch1Writes(mat, vec, R, out, i);
    }
  }

  /** The ladder writes every row of [0, R) exactly once, in ascending order. */
  lemma ScheduleCovers(R: nat)
    ensures Writes(Schedule(R)) == Range(0, R)
  {
    var q := R / 4;
    var two: seq<Step> := if R % 4 >= 2 then [Batch(2, R / 2 - 1)] else [];
    WritesThree(Batches(4, Unroll(UnrollNum, 0, q)), two, LastRow(R));
    WritesBulk(4, q);
    LastRowWrites(R);
    LadderArith(R);
    assert Writes(two) == Range(4 * q, 2 * (R / 2)) by {
      if R % 4 >= 2 { WritesSingle(Batch(2, R / 2 - 1)); }
    }
    RangeAppend(0, 4 * q, 2 * (R / 2));
    RangeAppend(0, 2 * (R / 2), R);
  }

  /** The ladder only calls the lambdas this overload defines. */
  lemma ScheduleSizes(R: nat)
    ensures UsesSizes(Schedule(R), Sizes)
  {
  }
}
