/** The data the benchmark hands to every product routine (include/bench.hpp):
    a row-major, unaligned, unpadded R×C matrix, an input vector of C elements
    and an output vector of R elements, together with the naive scalar product
    `loop_::prod` that serves as the reference. Elements are exact reals: the
    model does not round. */
module Layout {

  type Num = real

  /** `Mat<T, R, C>`: blaze::StaticMatrix with rowMajor, unaligned, unpadded. */
  datatype Mat = Mat(rows: nat, cols: nat, data: seq<Num>) {

    /** Unpadded storage holds exactly rows·cols contiguous elements. */
    predicate Valid() {
      |data| == rows * cols
    }

    /** `mat(i, j)` */
    function At(i: nat, j: nat): Num
      requires Valid() && i < rows && j < cols
    {
      OffsetInRange(rows, cols, i, j);
      data[Offset(cols, i, j)]
    }
  }

  /** Position of element (i, j) in row-major storage with C columns. */
  function Offset(C: nat, i: nat, j: nat): nat {
    i * C + j
  }

  /** Every element of an R×C matrix lies inside its R·C elements of storage. */
  lemma OffsetInRange(R: nat, C: nat, i: nat, j: nat)
    requires i < R && j < C
    ensures Offset(C, i, j) < R * C
  {
    RowFits(R, C, i);
  }

  /** Distinct elements occupy distinct storage positions: the layout has no padding overlap. */
  lemma OffsetInjective(C: nat, i: nat, j: nat, i': nat, j': nat)
    requires j < C && j' < C
    requires Offset(C, i, j) == Offset(C, i', j')
    ensures i == i' && j == j'
  {
    if i < i' {
      MulMono(C, i + 1, i');
      assert false;
    } else if i' < i {
      MulMono(C, i' + 1, i);
      assert false;
    }
  }

  lemma MulMono(c: nat, a: nat, b: nat)
    requires a <= b
    ensures a * c <= b * c
  {
    assert b * c == a * c + (b - a) * c;
  }

  /** Row r (0 <= r < R) ends no later than the end of the R·C storage. */
  lemma RowFits(R: nat, C: nat, r: nat)
    requires r < R
    ensures r * C + C <= R * C
  {
    MulMono(C, r + 1, R);
  }

  /** Σ_{j<n} mat[base+j]·vec[j], accumulated left to right as the scalar loop does. */
  function DotFrom(mat: seq<Num>, base: nat, vec: seq<Num>, n: nat): Num
    requires base + n <= |mat| && n <= |vec|
  {
    if n == 0 then 0.0 else DotFrom(mat, base, vec, n - 1) + mat[base + n - 1] * vec[n - 1]
  }

  /** The exact value the product assigns to out[r]: row r of the matrix dotted with the input. */
  function RowDot(mat: seq<Num>, vec: seq<Num>, R: nat, C: nat, r: int): Num
    requires |mat| == R * C && |vec| == C && 0 <= r < R
  {
    RowFits(R, C, r);
    DotFrom(mat, r * C, vec, C)
  }

  /** The whole product: out[r] = RowDot(r) for every row. */
  function MatVec(mat: seq<Num>, vec: seq<Num>, R: nat, C: nat): (y: seq<Num>)
    requires |mat| == R * C && |vec| == C
  {
    seq(R, r requires 0 <= r < R => RowDot(mat, vec, R, C, r))
  }

  /** `vals` holds, in order, the exact products of the rows first, first+1, ... */
  predicate IsRowDots(vals: seq<Num>, mat: seq<Num>, vec: seq<Num>, R: nat, C: nat, first: int)
    requires |mat| == R * C && |vec| == C
  {
    forall t :: 0 <= t < |vals| ==> 0 <= first + t < R && vals[t] == RowDot(mat, vec, R, C, first + t)
  }

  /** A register holding the products of eight consecutive rows, in order. */
  lemma RowDots8(v: seq<Num>, mat: seq<Num>, vec: seq<Num>, R: nat, C: nat, first: int)
    requires |mat| == R * C && |vec| == C && 0 <= first && first + 8 <= R
    requires v == [RowDot(mat, vec, R, C, first), RowDot(mat, vec, R, C, first + 1),
                   RowDot(mat, vec, R, C, first + 2), RowDot(mat, vec, R, C, first + 3),
                   RowDot(mat, vec, R, C, first + 4), RowDot(mat, vec, R, C, first + 5),
                   RowDot(mat, vec, R, C, first + 6), RowDot(mat, vec, R, C, first + 7)]
    ensures IsRowDots(v, mat, vec, R, C, first)
  {
    forall t | 0 <= t < 8
      ensures v[t] == RowDot(mat, vec, R, C, first + t)
    {
      if t == 0 {} else if t == 1 {} else if t == 2 {} else if t == 3 {}
      else if t == 4 {} else if t == 5 {} else if t == 6 {} else {}
    }
  }

  /** A register holding the products of four consecutive rows, in order. */
  lemma RowDots4(v: seq<Num>, mat: seq<Num>, vec: seq<Num>, R: nat, C: nat, first: int)
    requires |mat| == R * C && |vec| == C && 0 <= first && first + 4 <= R
    requires v == [RowDot(mat, vec, R, C, first), RowDot(mat, vec, R, C, first + 1),
                   RowDot(mat, vec, R, C, first + 2), RowDot(mat, vec, R, C, first + 3)]
    ensures IsRowDots(v, mat, vec, R, C, first)
  {
    forall t | 0 <= t < 4
      ensures v[t] == RowDot(mat, vec, R, C, first + t)
    {
      if t == 0 {} else if t == 1 {} else if t == 2 {} else {}
    }
  }

  /** A register holding the products of two consecutive rows, in order. */
  lemma RowDots2(v: seq<Num>, mat: seq<Num>, vec: seq<Num>, R: nat, C: nat, first: int)
    requires |mat| == R * C && |vec| == C && 0 <= first && first + 2 <= R
    requires v == [RowDot(mat, vec, R, C, first), RowDot(mat, vec, R, C, first + 1)]
    ensures IsRowDots(v, mat, vec, R, C, first)
  {
    forall t | 0 <= t < 2
      ensures v[t] == RowDot(mat, vec, R, C, first + t)
    {
      if t == 0 {} else {}
    }
  }

  /** The lane products mat[base+j]·vec[j] for j < n. */
  function Products(mat: seq<Num>, base: nat, vec: seq<Num>, n: nat): (p: seq<Num>)
    requires base + n <= |mat| && n <= |vec|
    ensures |p| == n
  {
    seq(n, j requires 0 <= j < n => mat[base + j] * vec[j])
  }

  /** Left-to-right sum of a sequence. */
  function Sum(v: seq<Num>): Num {
    if |v| == 0 then 0.0 else Sum(v[..|v| - 1]) + v[|v| - 1]
  }

  /** The scalar loop's accumulation is the left-to-right sum of the lane products. */
  lemma {:induction false} DotIsSum(mat: seq<Num>, base: nat, vec: seq<Num>, n: nat)
    requires base + n <= |mat| && n <= |vec|
    ensures DotFrom(mat, base, vec, n) == Sum(Products(mat, base, vec, n))
  {
    if n > 0 {
      DotIsSum(mat, base, vec, n - 1);
      assert Products(mat, base, vec, n)[..n - 1] == Products(mat, base, vec, n - 1);
    }
  }

  /** RowDot(r) is the sum of row r's C lane products. */
  lemma RowDotIsSum(mat: seq<Num>, vec: seq<Num>, R: nat, C: nat, r: int)
    requires |mat| == R * C && |vec| == C && 0 <= r < R
    ensures r * C + C <= |mat|
    ensures RowDot(mat, vec, R, C, r) == Sum(Products(mat, r * C, vec, C))
  {
    RowFits(R, C, r);
    DotIsSum(mat, r * C, vec, C);
  }

  /** RowDotIsSum with the row's offset r·C supplied by the caller. */
  lemma RowDotSumAt(mat: seq<Num>, vec: seq<Num>, R: nat, C: nat, r: int, base: nat)
    requires |mat| == R * C && |vec| == C && 0 <= r < R && base == r * C
    ensures base + C <= |mat|
    ensures RowDot(mat, vec, R, C, r) == Sum(Products(mat, base, vec, C))
  {
    RowDotIsSum(mat, vec, R, C, r);
  }

  /** Explicit expansions of the left-to-right sum for the three column counts. */
  lemma Sum2(v: seq<Num>)
    requires |v| == 2
    ensures Sum(v) == v[0] + v[1]
  {
    assert v[..1][..0] == [];
    assert Sum(v[..1]) == v[0];
  }

  lemma Sum4(v: seq<Num>)
    requires |v| == 4
    ensures Sum(v) == v[0] + v[1] + v[2] + v[3]
  {
    Sum2(v[..2]);
    assert v[..3][..2] == v[..2];
    assert Sum(v[..3]) == Sum(v[..2]) + v[2];
    assert v[..4] == v;
  }

  lemma Sum8(v: seq<Num>)
    requires |v| == 8
    ensures Sum(v) == v[0] + v[1] + v[2] + v[3] + v[4] + v[5] + v[6] + v[7]
  {
    Sum4(v[..4]);
    assert v[..5][..4] == v[..4];
    assert Sum(v[..5]) == Sum(v[..4]) + v[4];
    assert v[..6][..5] == v[..5];
    assert Sum(v[..6]) == Sum(v[..5]) + v[5];
    assert v[..7][..6] == v[..6];
    assert Sum(v[..7]) == Sum(v[..6]) + v[6];
    assert v[..8] == v;
  }

  /** `loop_::prod`: for each row, zero out[i] and accumulate mat[i·C+j]·vec[j]
      for j = 0..C-1. The result does not depend on what `out0` held. */
  method LoopProd(mat: seq<Num>, vec: seq<Num>, R: nat, C: nat, out0: seq<Num>) returns (out: seq<Num>)
    requires |mat| == R * C && |vec| == C && |out0| == R
    ensures |out| == R
    ensures forall r :: 0 <= r < R ==> out[r] == RowDot(mat, vec, R, C, r)
  {
    out := out0;
    var i := 0;
    while i < R
      invariant 0 <= i <= R && |out| == R
      invariant forall r :: 0 <= r < i ==> out[r] == RowDot(mat, vec, R, C, r)
    {
      RowFits(R, C, i);
      out := out[i := 0.0];
      var j := 0;
      while j < C
        invariant 0 <= j <= C && |out| == R
        invariant out[i] == DotFrom(mat, i * C, vec, j)
        invariant forall r :: 0 <= r < i ==> out[r] == RowDot(mat, vec, R, C, r)
      {
        out := out[i := out[i] + mat[i * C + j] * vec[j]];
        j := j + 1;
      }
      i := i + 1;
    }
  }

  /** Read through the row-major layout, RowDot(r) is the left-to-right sum of
      mat(r, j)·vec[j] over the columns. */
  lemma RowDotAt(m: Mat, vec: seq<Num>, r: nat)
    requires m.Valid() && |vec| == m.cols && r < m.rows
    ensures RowDot(m.data, vec, m.rows, m.cols, r)
         == Sum(seq(m.cols, j requires 0 <= j < m.cols => m.At(r, j) * vec[j]))
  {
    var base := r * m.cols;
    RowDotSumAt(m.data, vec, m.rows, m.cols, r, base);
    var p := Products(m.data, base, vec, m.cols);
    var q := seq(m.cols, j requires 0 <= j < m.cols => m.At(r, j) * vec[j]);
    forall j | 0 <= j < m.cols
      ensures p[j] == q[j]
    {
      assert Offset(m.cols, r, j) == base + j;
    }
    assert p == q;
  }

  /** The loop and the whole-product definition agree. */
  lemma LoopIsMatVec(mat: seq<Num>, vec: seq<Num>, R: nat, C: nat, out: seq<Num>)
    requires |mat| == R * C && |vec| == C && |out| == R
    requires forall r :: 0 <= r < R ==> out[r] == RowDot(mat, vec, R, C, r)
    ensures out == MatVec(mat, vec, R, C)
  {
  }
}
