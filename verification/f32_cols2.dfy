/** `matvec_simd<R>(f32 const*, f32 const*, f32*, int_constant<2>)`: the two
    input values are repeated four times across a 256-bit register, so one
    8-lane load covers four rows. Bulk batches of 8 rows, then at most one
    4-row batch, then single rows. The 2-row lambda is defined but never called. */
module F32Cols2 {
  import opened Optional
  import opened Indices
  import opened Layout
  import opened Intrinsics
  import opened Unrolling
  import opened Steps

  /** The batch lambdas this overload defines. */
  const Sizes: set<nat> := {8, 4, 2, 1}

  /** `in[k] = in_data[k % 2]` for the eight lanes, by scalar reads. */
  function Prologue(vec: seq<Num>): (r: Option<seq<Num>>)
    ensures r.Some? ==> |r.value| == 8
  {
    var a :- Read(vec, 0);
    var b :- Read(vec, 1);
    Some([a, b, a, b, a, b, a, b])
  }

  /** The register that batch_8(i) stores. */
  function Batch8Sums(mat: seq<Num>, reg: seq<Num>, i: int): (r: Option<seq<Num>>)
    requires |reg| == 8
    ensures r.Some? ==> |r.value| == 8
  {
    var m1 :- Load(mat, 16 * i, 8);
    var m2 :- Load(mat, 16 * i + 8, 8);
    var h := Hadd256Ps(Mul(m1, reg), Mul(m2, reg));
    Some(Shuffle(h, h, [0, 1, 4, 5, 2, 3, 6, 7]))
  }

  /** `batch_8(i)`. */
  function Batch8(mat: seq<Num>, reg: seq<Num>, out: seq<Num>, i: int): Option<seq<Num>>
    requires |reg| == 8
  {
    var v :- Batch8Sums(mat, reg, i);
    Store(out, 8 * i, v)
  }

  /** The register f4 that batch_4(i) stores. */
  function Batch4Sums(mat: seq<Num>, reg: seq<Num>, i: int): (r: Option<seq<Num>>)
    requires |reg| == 8
    ensures r.Some? ==> |r.value| == 4
  {
    var m :- Load(mat, 8 * i, 8);
    var p := Mul(m, reg);
    Some(Add(Shuffle(p, p, [0, 2, 4, 6]), Shuffle(p, p, [1, 3, 5, 7])))
  }

  /** `batch_4(i)`. */
  function Batch4(mat: seq<Num>, reg: seq<Num>, out: seq<Num>, i: int): Option<seq<Num>>
    requires |reg| == 8
  {
    var f4 :- Batch4Sums(mat, reg, i);
    Store(out, 4 * i, f4)
  }

  /** The two values batch_2(i) writes; it rebuilds its own 4-lane input by scalar reads. */
  function Batch2Sums(mat: seq<Num>, vec: seq<Num>, i: int): (r: Option<seq<Num>>)
    ensures r.Some? ==> |r.value| == 2
  {
    var m :- Load(mat, 4 * i, 4);
    var a :- Read(vec, 0);
    var b :- Read(vec, 1);
    var f4 := Mul(m, [a, b, a, b]);
    Some([f4[0] + f4[1], f4[2] + f4[3]])
  }

  /** `batch_2(i)`: scalar stores to out[2i] and out[2i+1]. */
  function Batch2(mat: seq<Num>, vec: seq<Num>, out: seq<Num>, i: int): Option<seq<Num>> {
    var s :- Batch2Sums(mat, vec, i);
    var out1 :- Store(out, 2 * i, [s[0]]);
    Store(out1, 2 * i + 1, [s[1]])
  }

  /** The value batch_1(i) writes: plain scalar code. */
  function Batch1Sum(mat: seq<Num>, vec: seq<Num>, i: int): Option<Num> {
    var a :- Read(vec, 0);
    var x :- Read(mat, 2 * i);
    var b :- Read(vec, 1);
    var y :- Read(mat, 2 * i + 1);
    Some(a * x + b * y)
  }

  /** `batch_1(i)`. */
  function Batch1(mat: seq<Num>, vec: seq<Num>, out: seq<Num>, i: int): Option<seq<Num>> {
    var s :- Batch1Sum(mat, vec, i);
    Store(out, i, [s])
  }

  /** The lambda `batch_<size>`; there is none for other sizes. */
  function RunBatch(size: nat, mat: seq<Num>, vec: seq<Num>, reg: seq<Num>, out: seq<Num>, i: int): Option<seq<Num>>
    requires |reg| == 8
  {
    if size == 8 then Batch8(mat, reg, out, i)
    else if size == 4 then Batch4(mat, reg, out, i)
    else if size == 2 then Batch2(mat, vec, out, i)
    else if size == 1 then Batch1(mat, vec, out, i)
    else None
  }

  /** The body: `unroll<UnrollNum, 0, R/8>(batch_8)`, then batch_4(R/4 - 1) when
      R % 8 >= 4, then batch_1 on rows 2·(R/2) - 2 and 2·(R/2) - 1 when R % 4 >= 2
      (where the call of batch_2 is commented out), then batch_1(R - 1) when R is odd. */
  function Schedule(R: nat): seq<Step> {
    Batches(8, Unroll(UnrollNum, 0, R / 8))
      + (if R % 8 >= 4 then [Batch(4, R / 4 - 1)] else [])
      + LastPairByRows(R)
      + LastRow(R)
  }

  /** The register repeating the two input values. */
  function Tiled(vec: seq<Num>): (r: seq<Num>)
    requires |vec| == 2
    ensures |r| == 8
  {
    [vec[0], vec[1], vec[0], vec[1], vec[0], vec[1], vec[0], vec[1]]
  }

  lemma PrologueTiles(vec: seq<Num>)
    requires |vec| == 2
    ensures Prologue(vec) == Some(Tiled(vec))
  {
  }

  /** The reduction of batch_8: one horizontal add and a shuffle put the eight
      pair sums in row order. */
  lemma Batch8Tree(p1: seq<Num>, p2: seq<Num>)
    requires |p1| == 8 && |p2| == 8
    ensures var h := Hadd256Ps(p1, p2);
      Shuffle(h, h, [0, 1, 4, 5, 2, 3, 6, 7])
        == [p1[0] + p1[1], p1[2] + p1[3], p1[4] + p1[5], p1[6] + p1[7],
            p2[0] + p2[1], p2[2] + p2[3], p2[4] + p2[5], p2[6] + p2[7]]
  {
  }

  /** The reduction of batch_4: even lanes plus odd lanes. */
  lemma Batch4Tree(p: seq<Num>)
    requires |p| == 8
    ensures Add(Shuffle(p, p, [0, 2, 4, 6]), Shuffle(p, p, [1, 3, 5, 7]))
         == [p[0] + p[1], p[2] + p[3], p[4] + p[5], p[6] + p[7]]
  {
  }

  /** A register holding rows first .. first+3 of the matrix, multiplied by
      the tiled input, has each row's product in one pair of adjacent lanes. */
  lemma TiledLanes(mat: seq<Num>, vec: seq<Num>, R: nat, first: int, off: int, m: seq<Num>)
    requires |mat| == R * 2 && |vec| == 2 && 0 <= first && first + 4 <= R && off == 2 * first
    requires m == mat[off..off + 8]
    ensures var p := Mul(m, Tiled(vec));
      && p[0] + p[1] == RowDot(mat, vec, R, 2, first)
      && p[2] + p[3] == RowDot(mat, vec, R, 2, first + 1)
      && p[4] + p[5] == RowDot(mat, vec, R, 2, first + 2)
      && p[6] + p[7] == RowDot(mat, vec, R, 2, first + 3)
  {
    var reg := Tiled(vec);
    PairLane(mat, vec, R, first, m, reg, 0);
    PairLane(mat, vec, R, first + 1, m, reg, 2);
    PairLane(mat, vec, R, first + 2, m, reg, 4);
    PairLane(mat, vec, R, first + 3, m, reg, 6);
  }

  /** batch_8(i) leaves the products of rows 8i .. 8i+7 in lanes 0 .. 7, in order. */
  lemma Batch8Exact(mat: seq<Num>, vec: seq<Num>, R: nat, i: int)
    requires |mat| == R * 2 && |vec| == 2
    requires 0 <= i && 8 * i + 8 <= R
    ensures var r := Batch8Sums(mat, Tiled(vec), i);
      r.Some? && IsRowDots(r.value, mat, vec, R, 2, 8 * i)
  {
    var reg := Tiled(vec);
    var m1, m2 := mat[16 * i..16 * i + 8], mat[16 * i + 8..16 * i + 16];
    assert Load(mat, 16 * i, 8) == Some(m1) && Load(mat, 16 * i + 8, 8) == Some(m2);
    var p1, p2 := Mul(m1, reg), Mul(m2, reg);
    Batch8Tree(p1, p2);
    TiledLanes(mat, vec, R, 8 * i, 16 * i, m1);
    TiledLanes(mat, vec, R, 8 * i + 4, 16 * i + 8, m2);
    var v := Batch8Sums(mat, reg, i).value;
    assert v == [p1[0] + p1[1], p1[2] + p1[3], p1[4] + p1[5], p1[6] + p1[7],
                 p2[0] + p2[1], p2[2] + p2[3], p2[4] + p2[5], p2[6] + p2[7]];
    RowDots8(v, mat, vec, R, 2, 8 * i);
  }

  /** batch_4(i) leaves the products of rows 4i .. 4i+3 in lanes 0 .. 3, in order. */
  lemma Batch4Exact(mat: seq<Num>, vec: seq<Num>, R: nat, i: int)
    requires |mat| == R * 2 && |vec| == 2
    requires 0 <= i && 4 * i + 4 <= R
    ensures var r := Batch4Sums(mat, Tiled(vec), i);
      r.Some? && IsRowDots(r.value, mat, vec, R, 2, 4 * i)
  {
    var reg := Tiled(vec);
    var m := mat[8 * i..8 * i + 8];
    assert Load(mat, 8 * i, 8) == Some(m);
    var p := Mul(m, reg);
    Batch4Tree(p);
    TiledLanes(mat, vec, R, 4 * i, 8 * i, m);
    var v := Batch4Sums(mat, reg, i).value;
    assert v == [p[0] + p[1], p[2] + p[3], p[4] + p[5], p[6] + p[7]];
    RowDots4(v, mat, vec, R, 2, 4 * i);
  }

  /** batch_2(i), though never called, computes the products of rows 2i and 2i+1. */
  lemma Batch2Exact(mat: seq<Num>, vec: seq<Num>, R: nat, i: int)
    requires |mat| == R * 2 && |vec| == 2
    requires 0 <= i && 2 * i + 2 <= R
    ensures var r := Batch2Sums(mat, vec, i);
      r.Some? && r.value[0] == RowDot(mat, vec, R, 2, 2 * i) && r.value[1] == RowDot(mat, vec, R, 2, 2 * i + 1)
  {
    var m := Load(mat, 4 * i, 4).value;
    var reg := [vec[0], vec[1], vec[0], vec[1]];
    PairLane(mat, vec, R, 2 * i, m, reg, 0);
    PairLane(mat, vec, R, 2 * i + 1, m, reg, 2);
  }

  /** batch_1(i) writes the product of row i. */
  lemma Batch1Exact(mat: seq<Num>, vec: seq<Num>, R: nat, i: int)
    requires |mat| == R * 2 && |vec| == 2
    requires 0 <= i < R
    ensures Batch1Sum(mat, vec, i) == Some(RowDot(mat, vec, R, 2, i))
  {
    RowDotIsSum(mat, vec, R, 2, i);
    var p := Products(mat, 2 * i, vec, 2);
    Sum2(p);
    assert p[0] == vec[0] * mat[2 * i] && p[1] == vec[1] * mat[2 * i + 1];
    assert Batch1Sum(mat, vec, i).Some?;
    assert Batch1Sum(mat, vec, i).value == vec[0] * mat[2 * i] + vec[1] * mat[2 * i + 1];
  }

  lemma Batch8Writes(mat: seq<Num>, vec: seq<Num>, R: nat, out: seq<Num>, i: int)
    requires |mat| == R * 2 && |vec| == 2 && |out| == R
    requires 0 <= i && 8 * i + 8 <= R
    ensures var r := Batch8(mat, Tiled(vec), out, i);
      r.Some? && Updated(out, r.value, mat, vec, R, 2, Range(8 * i, 8 * i + 8))
  {
    Batch8Exact(mat, vec, R, i);
    var v := Batch8Sums(mat, Tiled(vec), i).value;
    assert Batch8(mat, Tiled(vec), out, i) == Store(out, 8 * i, v);
    StoreRows(out, 8 * i, 8 * i + 8, v, mat, vec, R, 2);
  }

  lemma Batch4Writes(mat: seq<Num>, vec: seq<Num>, R: nat, out: seq<Num>, i: int)
    requires |mat| == R * 2 && |vec| == 2 && |out| == R
    requires 0 <= i && 4 * i + 4 <= R
    ensures var r := Batch4(mat, Tiled(vec), out, i);
      r.Some? && Updated(out, r.value, mat, vec, R, 2, Range(4 * i, 4 * i + 4))
  {
    Batch4Exact(mat, vec, R, i);
    var v := Batch4Sums(mat, Tiled(vec), i).value;
    assert Batch4(mat, Tiled(vec), out, i) == Store(out, 4 * i, v);
    StoreRows(out, 4 * i, 4 * i + 4, v, mat, vec, R, 2);
  }

  lemma Batch2Writes(mat: seq<Num>, vec: seq<Num>, R: nat, out: seq<Num>, i: int)
    requires |mat| == R * 2 && |vec| == 2 && |out| == R
    requires 0 <= i && 2 * i + 2 <= R
    ensures var r := Batch2(mat, vec, out, i);
      r.Some? && Updated(out, r.value, mat, vec, R, 2, Range(2 * i, 2 * i + 2))
  {
    Batch2Exact(mat, vec, R, i);
    var s := Batch2Sums(mat, vec, i).value;
    StorePair(out, 2 * i, s[0], s[1], mat, vec, R, 2);
  }

  lemma Batch1Writes(mat: seq<Num>, vec: seq<Num>, R: nat, out: seq<Num>, i: int)
    requires |mat| == R * 2 && |vec| == 2 && |out| == R
    requires 0 <= i < R
    ensures var r := Batch1(mat, vec, out, i);
      r.Some? && Updated(out, r.value, mat, vec, R, 2, Range(i, i + 1))
  {
    Batch1Exact(mat, vec, R, i);
    StoreRows(out, i, i + 1, [Batch1Sum(mat, vec, i).value], mat, vec, R, 2);
  }

  /** Each batch lambda, called on rows inside [0, R) with the prologue's
      register, succeeds and overwrites exactly the rows it owns with their
      exact products. */
  lemma RunBatchWrites(size: nat, mat: seq<Num>, vec: seq<Num>, R: nat, out: seq<Num>, i: int)
    requires |mat| == R * 2 && |vec| == 2 && |out| == R
    requires size in Sizes && 0 <= size * i && size * i + size <= R
    ensures var r := RunBatch(size, mat, vec, Tiled(vec), out, i);
      r.Some? && Updated(out, r.value, mat, vec, R, 2, Rows(Batch(size, i)))
  {
    if size == 8 {
      assert Rows(Batch(size, i)) == Range(8 * i, 8 * i + 8);
      Batch8Writes(mat, vec, R, out, i);
    } else if size == 4 {
      assert Rows(Batch(size, i)) == Range(4 * i, 4 * i + 4);
      Batch4Writes(mat, vec, R, out, i);
    } else if size == 2 {
      assert Rows(Batch(size, i)) == Range(2 * i, 2 * i + 2);
      Batch2Writes(mat, vec, R, out, i);
    } else {
      assert size == 1;
      assert Rows(Batch(size, i)) == Range(i, i + 1);
      Batch1Writes(mat, vec, R, out, i);
    }
  }

  /** The ladder writes every row of [0, R) exactly once, in ascending order. */
  lemma ScheduleCovers(R: nat)
    ensures Writes(Schedule(R)) == Range(0, R)
  {
    var q := R / 8;
    var bulk := Batches(8, Unroll(UnrollNum, 0, q));
    var four: seq<Step> := if R % 8 >= 4 then [Batch(4, R / 4 - 1)] else [];
    WritesThree(bulk + four, LastPairByRows(R), LastRow(R));
    WritesAppend(bulk, four);
    WritesBulk(8, q);
    LastPairByRowsWrites(R);
    LastRowWrites(R);
    LadderArith(R);
    assert Writes(four) == Range(8 * q, 4 * (R / 4)) by {
      if R % 8 >= 4 { WritesSingle(Batch(4, R / 4 - 1)); }
    }
    RangeAppend(0, 8 * q, 4 * (R / 4));
    RangeAppend(0, 4 * (R / 4), 2 * (R / 2));
    RangeAppend(0, 2 * (R / 2), R);
  }

  /** The ladder calls batch_8, batch_4 and batch_1, and never batch_2. */
  lemma ScheduleSizes(R: nat)
    ensures UsesSizes(Schedule(R), Sizes - {2})
  {
    var bulk := Batches(8, Unroll(UnrollNum, 0, R / 8));
    var four: seq<Step> := if R % 8 >= 4 then [Batch(4, R / 4 - 1)] else [];
    var sizes := Sizes - {2};
    assert UsesSizes(bulk, sizes);
    UsesSizesAppend(bulk, four, sizes);
    UsesSizesAppend(bulk + four, LastPairByRows(R), sizes);
    UsesSizesAppend(bulk + four + LastPairByRows(R), LastRow(R), sizes);
  }
}
