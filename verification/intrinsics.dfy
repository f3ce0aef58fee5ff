/** The x86 vector operations the kernels use, as pure functions on lane
    sequences (lane 0 first), following the lane semantics of the Intel
    Intrinsics Guide. Arithmetic is exact; `_mm256_fmadd_pd` is a·b + c
    without rounding. Loads and stores are unaligned and fail (None) when any
    lane falls outside the buffer, which is undefined behaviour in C++. */
module Intrinsics {
  import opened Optional
  import opened Layout

  /** `_mm_loadu_ps` / `_mm256_loadu_ps` / `_mm_loadu_pd` / `_mm256_loadu_pd`:
      n consecutive elements starting at buf + off. */
  function Load(buf: seq<Num>, off: int, n: nat): (r: Option<seq<Num>>)
    ensures r.Some? ==> |r.value| == n
  {
    if 0 <= off && off + n <= |buf| then Some(buf[off..off + n]) else None
  }

  /** A scalar read buf[k]. */
  function Read(buf: seq<Num>, k: int): Option<Num> {
    if 0 <= k < |buf| then Some(buf[k]) else None
  }

  /** `_mm256_loadu2_m128(hi, lo)` / `_mm256_loadu2_m128d(hi, lo)`: the low half
      from lo, the high half from hi. */
  function Load2(buf: seq<Num>, hiOff: int, loOff: int, n: nat): (r: Option<seq<Num>>)
    ensures r.Some? ==> |r.value| == 2 * n
  {
    var hi :- Load(buf, hiOff, n);
    var lo :- Load(buf, loOff, n);
    Some(lo + hi)
  }

  /** `_mm_storeu_ps` / `_mm256_storeu_ps` / `_mm_storeu_pd` / `_mm256_storeu_pd`
      and scalar stores: v written over buf[off, off + |v|). */
  function Store(buf: seq<Num>, off: int, v: seq<Num>): (r: Option<seq<Num>>)
    ensures r.Some? ==> |r.value| == |buf|
  {
    if 0 <= off && off + |v| <= |buf| then Some(buf[..off] + v + buf[off + |v|..]) else None
  }

  /** Lane-wise `a * b` on vector types. */
  function Mul(a: seq<Num>, b: seq<Num>): (r: seq<Num>)
    requires |a| == |b|
    ensures |r| == |a|
  {
    seq(|a|, k requires 0 <= k < |a| => a[k] * b[k])
  }

  /** Lane-wise `a + b` on vector types. */
  function Add(a: seq<Num>, b: seq<Num>): (r: seq<Num>)
    requires |a| == |b|
    ensures |r| == |a|
  {
    seq(|a|, k requires 0 <= k < |a| => a[k] + b[k])
  }

  /** `_mm256_fmadd_pd(a, b, c)`: a·b + c per lane, exact. */
  function Fmadd(a: seq<Num>, b: seq<Num>, c: seq<Num>): (r: seq<Num>)
    requires |a| == |b| == |c|
    ensures |r| == |a|
  {
    seq(|a|, k requires 0 <= k < |a| => a[k] * b[k] + c[k])
  }

  /** `_mm256_hadd_ps(a, b)`: pairwise sums, interleaved per 128-bit half. */
  function Hadd256Ps(a: seq<Num>, b: seq<Num>): (r: seq<Num>)
    requires |a| == 8 && |b| == 8
    ensures |r| == 8
  {
    [a[0] + a[1], a[2] + a[3], b[0] + b[1], b[2] + b[3],
     a[4] + a[5], a[6] + a[7], b[4] + b[5], b[6] + b[7]]
  }

  /** `_mm_hadd_ps(a, b)`. */
  function Hadd128Ps(a: seq<Num>, b: seq<Num>): (r: seq<Num>)
    requires |a| == 4 && |b| == 4
    ensures |r| == 4
  {
    [a[0] + a[1], a[2] + a[3], b[0] + b[1], b[2] + b[3]]
  }

  /** `_mm256_hadd_pd(a, b)`. */
  function Hadd256Pd(a: seq<Num>, b: seq<Num>): (r: seq<Num>)
    requires |a| == 4 && |b| == 4
    ensures |r| == 4
  {
    [a[0] + a[1], b[0] + b[1], a[2] + a[3], b[2] + b[3]]
  }

  /** `_mm256_extractf128_ps(a, imm)` / `_mm256_extractf128_pd(a, imm)`: the high
      128-bit half when bit 0 of imm is set, the low half otherwise. */
  function Extract128(a: seq<Num>, imm: nat): (r: seq<Num>)
    requires |a| == 8 || |a| == 4
    ensures |r| == |a| / 2
  {
    if imm % 2 == 1 then a[|a| / 2..] else a[..|a| / 2]
  }

  /** `_mm256_castps256_ps128` / `_mm256_castpd256_pd128`: the low 128-bit half. */
  function Cast128(a: seq<Num>): (r: seq<Num>)
    requires |a| == 8 || |a| == 4
    ensures |r| == |a| / 2
  {
    a[..|a| / 2]
  }

  /** `_mm_permute_ps(a, imm)`: lane k takes a[(imm >> 2k) & 3]. */
  function PermutePs(a: seq<Num>, imm: nat): (r: seq<Num>)
    requires |a| == 4 && imm < 256
    ensures |r| == 4
  {
    [a[imm % 4], a[imm / 4 % 4], a[imm / 16 % 4], a[imm / 64 % 4]]
  }

  /** `_mm_permute_pd(a, imm)`: lane k takes a[(imm >> k) & 1]. */
  function PermutePd(a: seq<Num>, imm: nat): (r: seq<Num>)
    requires |a| == 2 && imm < 4
    ensures |r| == 2
  {
    [a[imm % 2], a[imm / 2 % 2]]
  }

  /** `_mm_movehdup_ps(a)`: each odd lane duplicated downward. */
  function MoveHDup(a: seq<Num>): (r: seq<Num>)
    requires |a| == 4
    ensures |r| == 4
  {
    [a[1], a[1], a[3], a[3]]
  }

  /** `_mm_movehl_ps(a, b)`: the high half of b, then the high half of a. */
  function MoveHL(a: seq<Num>, b: seq<Num>): (r: seq<Num>)
    requires |a| == 4 && |b| == 4
    ensures |r| == 4
  {
    [b[2], b[3], a[2], a[3]]
  }

  /** `__builtin_shufflevector(a, b, idx...)`: lane k takes lane idx[k] of a ++ b. */
  function Shuffle(a: seq<Num>, b: seq<Num>, idx: seq<nat>): (r: seq<Num>)
    requires forall k :: 0 <= k < |idx| ==> idx[k] < |a| + |b|
    ensures |r| == |idx|
  {
    seq(|idx|, k requires 0 <= k < |idx| => (a + b)[idx[k]])
  }

  /** Loading n matrix elements at off and multiplying by the n input lanes gives
      the lane products of that stretch of the matrix. */
  lemma LoadMul(mat: seq<Num>, off: int, vec: seq<Num>, n: nat)
    requires 0 <= off && off + n <= |mat| && |vec| == n
    ensures Load(mat, off, n).Some?
    ensures Mul(Load(mat, off, n).value, vec) == Products(mat, off, vec, n)
  {
    var m := Load(mat, off, n).value;
    assert forall j :: 0 <= j < n ==> Mul(m, vec)[j] == Products(mat, off, vec, n)[j];
  }

  /** Same, with the matrix lanes as the second operand. */
  lemma LoadMulRev(mat: seq<Num>, off: int, vec: seq<Num>, n: nat)
    requires 0 <= off && off + n <= |mat| && |vec| == n
    ensures Load(mat, off, n).Some?
    ensures Mul(vec, Load(mat, off, n).value) == Products(mat, off, vec, n)
  {
    var m := Load(mat, off, n).value;
    assert forall j :: 0 <= j < n ==> Mul(vec, m)[j] == Products(mat, off, vec, n)[j];
  }

  /** Loading 2n matrix elements at off and multiplying by a register holding the
      n input lanes twice gives the lane products of two consecutive stretches. */
  lemma LoadMulTwice(mat: seq<Num>, off: int, vec: seq<Num>, n: nat)
    requires 0 <= off && off + 2 * n <= |mat| && |vec| == n
    ensures Load(mat, off, 2 * n).Some?
    ensures var p := Mul(Load(mat, off, 2 * n).value, vec + vec);
      p[..n] == Products(mat, off, vec, n) && p[n..] == Products(mat, off + n, vec, n)
  {
    var p := Mul(Load(mat, off, 2 * n).value, vec + vec);
    assert forall j :: 0 <= j < n ==> p[..n][j] == Products(mat, off, vec, n)[j];
    forall j | 0 <= j < n
      ensures p[n..][j] == Products(mat, off + n, vec, n)[j]
    {
      assert (vec + vec)[n + j] == vec[j];
    }
  }

  /** Adjacent lanes k, k+1 of a product register that hold row `row` of a
      two-column matrix against the two input values add up to that row's
      product, whichever operand order the multiply used. */
  lemma PairLane(mat: seq<Num>, vec: seq<Num>, R: nat, row: int, m: seq<Num>, reg: seq<Num>, k: int)
    requires |mat| == R * 2 && |vec| == 2 && 0 <= row < R
    requires |m| == |reg| && 0 <= k && k + 1 < |m|
    requires m[k] == mat[2 * row] && m[k + 1] == mat[2 * row + 1]
    requires reg[k] == vec[0] && reg[k + 1] == vec[1]
    ensures Mul(m, reg)[k] + Mul(m, reg)[k + 1] == RowDot(mat, vec, R, 2, row)
    ensures Mul(reg, m)[k] + Mul(reg, m)[k + 1] == RowDot(mat, vec, R, 2, row)
  {
    RowDotIsSum(mat, vec, R, 2, row);
    Sum2(Products(mat, 2 * row, vec, 2));
  }

  /** The double-precision two-row reduction: `_mm256_hadd_pd` of two 4-lane
      product registers, then high half plus low half, leaves each register's
      full sum in its own lane. */
  lemma HaddPdReduce(p1: seq<Num>, p2: seq<Num>)
    requires |p1| == 4 && |p2| == 4
    ensures var h := Hadd256Pd(p1, p2);
      Add(Extract128(h, 1), Cast128(h)) == [Sum(p1), Sum(p2)]
  {
    var h := Hadd256Pd(p1, p2);
    var s := Add(Extract128(h, 1), Cast128(h));
    assert s[0] == h[2] + h[0] && s[1] == h[3] + h[1];
    Sum4(p1);
    Sum4(p2);
    assert s[0] == Sum(p1) && s[1] == Sum(p2);
  }

  /** The double-precision one-row reduction: high half plus low half, then the
      two remaining lanes added. */
  lemma HalvesReduce(p: seq<Num>)
    requires |p| == 4
    ensures var s := Add(Extract128(p, 1), Cast128(p));
      s[0] + s[1] == Sum(p)
  {
    Sum4(p);
  }

  /** `_mm_permute_ps(x, 0x4E)` swaps the two 64-bit halves: [x2, x3, x0, x1]. */
  lemma PermutePsSwapHalves(x: seq<Num>)
    requires |x| == 4
    ensures PermutePs(x, 0x4E) == [x[2], x[3], x[0], x[1]]
  {
  }

  /** `_mm_permute_pd(x, 1)` swaps the two lanes. */
  lemma PermutePdSwap(x: seq<Num>)
    requires |x| == 2
    ensures PermutePd(x, 1) == [x[1], x[0]]
  {
  }

  /** `_mm_movehl_ps(x, x)` = [x2, x3, x2, x3]. */
  lemma MoveHLSelf(x: seq<Num>)
    requires |x| == 4
    ensures MoveHL(x, x) == [x[2], x[3], x[2], x[3]]
  {
  }
}
