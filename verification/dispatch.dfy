/** `matvec::prod(matrix, in, out)` (include/bench.hpp): calls
    `matvec_simd<Rows>(matrix.data(), in.data(), out.data(), int_constant<Cols>{})`,
    so overload resolution picks the kernel by element type and column count.
    A column count other than 8, 4 or 2 has no overload and does not compile. */
module Dispatch {
  import opened Optional
  import opened Layout
  import opened Kernels

  /** The element type T of `Mat<T, R, C>`. */
  datatype Elem = F32 | F64

  function ElemOf(k: Kernel): Elem {
    if k in {F32x8, F32x4, F32x2} then F32 else F64
  }

  /** The overload `matvec_simd(T const*, T const*, T*, int_constant<cols>)`, if one exists. */
  function Select(e: Elem, cols: nat): Option<Kernel> {
    match (e, cols)
    case (F32, 8) => Some(F32x8)
    case (F32, 4) => Some(F32x4)
    case (F32, 2) => Some(F32x2)
    case (F64, 8) => Some(F64x8)
    case (F64, 4) => Some(F64x4)
    case (F64, 2) => Some(F64x2)
    case _ => None
  }

  /** `matvec::prod`: the output after the call, or None when no overload matches
      or the kernel fails. */
  function Prod(e: Elem, m: Mat, vec: seq<Num>, out0: seq<Num>): Option<seq<Num>> {
    var k :- Select(e, m.cols);
    MatvecSimd(k, m.rows, m.data, vec, out0)
  }

  /** An overload exists exactly for 8, 4 and 2 columns, and it is the one with
      the matrix's element type and column count. */
  lemma SelectMatches(e: Elem, cols: nat)
    ensures Select(e, cols).Some? <==> cols in {2, 4, 8}
    ensures Select(e, cols).Some? ==> Cols(Select(e, cols).value) == cols && ElemOf(Select(e, cols).value) == e
  {
  }

  /** Every overload is selected by its own element type and column count. */
  lemma SelectComplete(k: Kernel)
    ensures Select(ElemOf(k), Cols(k)) == Some(k)
  {
  }

  /** For a supported column count, `matvec::prod` leaves the exact product in
      `out`, whatever `out` held before. */
  lemma ProdCorrect(e: Elem, m: Mat, vec: seq<Num>, out0: seq<Num>)
    requires m.Valid() && |vec| == m.cols && |out0| == m.rows
    requires m.cols in {2, 4, 8}
    ensures Prod(e, m, vec, out0) == Some(MatVec(m.data, vec, m.rows, m.cols))
  {
    SelectMatches(e, m.cols);
    MatvecSimdCorrect(Select(e, m.cols).value, m.rows, m.data, vec, out0);
  }

  /** Any other column count has no kernel. */
  lemma ProdUnsupported(e: Elem, m: Mat, vec: seq<Num>, out0: seq<Num>)
    requires m.cols !in {2, 4, 8}
    ensures Prod(e, m, vec, out0).None?
  {
    SelectMatches(e, m.cols);
  }

  /** The SIMD product and the scalar reference `loop_::prod`, run on the same
      operands, leave the same output. */
  method ProdMatchesLoop(e: Elem, m: Mat, vec: seq<Num>, out0: seq<Num>) returns (loopOut: seq<Num>)
    requires m.Valid() && |vec| == m.cols && |out0| == m.rows
    requires m.cols in {2, 4, 8}
    ensures Prod(e, m, vec, out0) == Some(loopOut)
  {
    loopOut := LoopProd(m.data, vec, m.rows, m.cols, out0);
    LoopIsMatVec(m.data, vec, m.rows, m.cols, loopOut);
    ProdCorrect(e, m, vec, out0);
  }
}
