/** The compile-time index generators of include/utility.hpp. Each is modelled
    by the sequence of arguments it passes to `fn`, in call order. */
module Unrolling {
  import opened Indices

  /** `std::make_index_sequence<n>`: 0, 1, ..., n-1. */
  function IndexSequence(n: nat): seq<int> {
    seq(n, k => k)
  }

  /** The fold `(fn(offset + Ns), ...)` over an index sequence. */
  function Offsets(offset: int, ns: seq<int>): seq<int> {
    seq(|ns|, k requires 0 <= k < |ns| => offset + ns[k])
  }

  /** `unroll_impl(fn, start, make_index_sequence<n>())`. */
  function UnrollImpl(start: int, n: nat): seq<int> {
    Offsets(start, IndexSequence(n))
  }

  /** `for_each<Start, End>(fn)`; a negative End - Start does not compile. */
  function ForEach(start: int, end: int): seq<int>
    requires start <= end
  {
    Offsets(start, IndexSequence(end - start))
  }

  /** The `for` loop of `unroll`: for i in [i, end), one `unroll_impl` at i·n. */
  function UnrollLoop(n: nat, i: int, end: int): seq<int>
    decreases end - i
  {
    if i >= end then [] else UnrollImpl(i * n, n) + UnrollLoop(n, i + 1, end)
  }

  /** `unroll<N, Start, Count>(fn)` as written: Count / N loop iterations over
      i in [Start, Start + Count / N), each calling fn at i·N ... i·N + N - 1,
      then, when rem = Count % N is not 0, `unroll<rem, Start + Count - rem, rem>`.
      N = 0 and a negative Count do not compile. */
  function Unroll(n: nat, start: int, count: nat): seq<int>
    requires n >= 1
    decreases n
  {
    var rem := count % n;
    MainLoop(n, start, count) + (if rem != 0 then Unroll(rem, start + count - rem, rem) else [])
  }

  /** The `for` loop part of `unroll<N, Start, Count>`. */
  function MainLoop(n: nat, start: int, count: nat): seq<int>
    requires n >= 1
  {
    UnrollLoop(n, start, start + count / n)
  }

  /** The value of `UnrollNum` every kernel instantiates `unroll` with. */
  const UnrollNum: nat := 1

  /** `unroll_impl` calls fn(start), ..., fn(start + n - 1), in that order. */
  lemma {:induction false} UnrollImplAscending(start: int, n: nat)
    ensures UnrollImpl(start, n) == Range(start, start + n)
  {
    var u, r := UnrollImpl(start, n), Range(start, start + n);
    assert |u| == |r|;
    forall k | 0 <= k < |u| ensures u[k] == r[k] {
    }
  }

  /** `for_each<Start, End>` calls fn with Start, ..., End - 1, each once, ascending. */
  lemma {:induction false} ForEachAscending(start: int, end: int)
    requires start <= end
    ensures ForEach(start, end) == Range(start, end)
  {
    UnrollImplAscending(start, end - start);
  }

  /** The loop emits one contiguous block: iteration i covers i·n ... i·n + n - 1,
      so iterations i .. end-1 together cover [i·n, end·n). */
  lemma {:induction false} UnrollLoopBlock(n: nat, i: int, end: int)
    requires i <= end
    ensures UnrollLoop(n, i, end) == Range(i * n, end * n)
    decreases end - i
  {
    if i < end {
      UnrollImplAscending(i * n, n);
      UnrollLoopBlock(n, i + 1, end);
      assert (i + 1) * n == i * n + n;
      MulLe(n, i + 1, end);
      RangeAppend(i * n, i * n + n, end * n);
    } else {
      assert i * n == end * n;
    }
  }

  lemma MulLe(n: nat, a: int, b: int)
    requires a <= b
    ensures a * n <= b * n
  {
    assert b * n - a * n == (b - a) * n;
  }

  /** The g-th block of n consecutive entries of s (empty past the end). */
  function Group(s: seq<int>, n: nat, g: nat): seq<int> {
    if g * n + n <= |s| then s[g * n..g * n + n] else []
  }

  /** The main loop of `unroll` runs Count / N groups; group g (loop variable
      i = Start + g) is one `unroll_impl` call covering i·N ... i·N + N - 1. */
  lemma UnrollMainGroups(n: nat, start: int, count: nat)
    requires n >= 1
    ensures |MainLoop(n, start, count)| == (count / n) * n
    ensures forall g: nat :: g < count / n ==>
      Group(MainLoop(n, start, count), n, g) == UnrollImpl((start + g) * n, n)
  {
    var q := count / n;
    UnrollLoopBlock(n, start, start + q);
    var main := UnrollLoop(n, start, start + q);
    assert (start + q) * n == start * n + q * n;
    forall g: nat | g < q
      ensures Group(main, n, g) == UnrollImpl((start + g) * n, n)
    {
      MulLe(n, g + 1, q);
      assert (g + 1) * n == g * n + n;
      assert (start + g) * n == start * n + g * n;
      UnrollImplAscending((start + g) * n, n);
      var grp := main[g * n..g * n + n];
      forall t | 0 <= t < n ensures grp[t] == (start + g) * n + t {
        assert grp[t] == main[g * n + t];
      }
    }
  }

  /** The residual instantiation `unroll<rem, S, rem>` runs exactly one
      `unroll_impl` group at S·rem and does not recurse again, since rem % rem == 0. */
  lemma UnrollResidualOnce(rem: nat, s: int)
    requires rem >= 1
    ensures Unroll(rem, s, rem) == UnrollImpl(s * rem, rem)
  {
    assert rem / rem == 1 && rem % rem == 0;
    assert UnrollLoop(rem, s + 1, s + 1) == [];
    assert UnrollLoop(rem, s, s + 1) == UnrollImpl(s * rem, rem) + [];
  }

  /** Every instantiation visits exactly Count indices. */
  lemma UnrollLength(n: nat, start: int, count: nat)
    requires n >= 1
    ensures |Unroll(n, start, count)| == count
  {
    var q, rem := count / n, count % n;
    UnrollLoopBlock(n, start, start + q);
    assert (start + q) * n - start * n == q * n;
    if rem != 0 {
      UnrollResidualOnce(rem, start + count - rem);
    }
  }

  /** With N = 1 (the value `UnrollNum` has) `unroll` calls fn once for each
      index of [Start, Start + Count), ascending; there is no residual call. */
  lemma UnrollOneAscending(start: int, count: nat)
    ensures Unroll(1, start, count) == Range(start, start + count)
  {
    assert count % 1 == 0 && count / 1 == count;
    UnrollLoopBlock(1, start, start + count);
  }

  /** `unroll<4, 0, 7>` visits 0, 1, 2, 3 and then 12, 13, 14 instead of 4, 5, 6. */
  lemma UnrollFourZeroSeven()
    ensures Unroll(4, 0, 7) == [0, 1, 2, 3, 12, 13, 14]
    ensures Unroll(4, 0, 7) != Range(0, 7)
  {
    UnrollLoopBlock(4, 0, 1);
    UnrollResidualOnce(3, 4);
    UnrollImplAscending(12, 3);
    assert Range(0, 4) == [0, 1, 2, 3];
    assert Range(12, 15) == [12, 13, 14];
    assert Range(0, 7)[4] == 4;
  }

  /** `unroll` as written is one block [Start·N, Start·N + (Count/N)·N) from the
      loop followed, when rem = Count % N is not 0, by the block of rem indices
      starting at (Start + Count - rem)·rem. */
  lemma UnrollShape(n: nat, start: int, count: nat, p: nat, rem: nat)
    requires n >= 1 && p == (count / n) * n && rem == count % n
    ensures Unroll(n, start, count)
        == Range(start * n, start * n + p)
         + (if rem != 0 then Range((start + p) * rem, (start + p) * rem + rem) else [])
  {
    UnrollUnfold(n, start, count, p, rem);
    MainLoopBlock(n, start, count, p);
    ResidualBlock(rem, start + p);
  }

  /** One step of the recursion of `unroll`, with the residual's start written Start + p. */
  lemma UnrollUnfold(n: nat, start: int, count: nat, p: nat, rem: nat)
    requires n >= 1 && p == (count / n) * n && rem == count % n
    ensures Unroll(n, start, count)
         == MainLoop(n, start, count) + (if rem != 0 then Unroll(rem, start + p, rem) else [])
  {
    assert start + count - rem == start + p;
  }

  lemma MainLoopBlock(n: nat, start: int, count: nat, p: nat)
    requires n >= 1 && p == (count / n) * n
    ensures MainLoop(n, start, count) == Range(start * n, start * n + p)
  {
    var q := count / n;
    UnrollLoopBlock(n, start, start + q);
    assert (start + q) * n == start * n + p;
  }

  lemma ResidualBlock(rem: nat, s: int)
    ensures (if rem != 0 then Unroll(rem, s, rem) else [])
         == (if rem != 0 then Range(s * rem, s * rem + rem) else [])
  {
    if rem != 0 {
      UnrollResidualOnce(rem, s);
      UnrollImplAscending(s * rem, rem);
    }
  }

  /** Exactly when `unroll<N, Start, Count>` as written visits [Start, Start + Count)
      in order: N = 1, at most one index, or Start = 0 with either no full group
      or a residual of at most one. */
  lemma UnrollCovers(n: nat, start: int, count: nat)
    requires n >= 1
    ensures Unroll(n, start, count) == Range(start, start + count)
        <==> n == 1 || count <= 1 || (start == 0 && (count < n || count % n <= 1))
  {
    var q, rem := count / n, count % n;
    var p := q * n;
    DivFacts(n, count, q, p, rem);
    UnrollShape(n, start, count, p, rem);
    CoversParts(Unroll(n, start, count), n, start, p, rem, start + count);
    CoverArith(n, start, count, q, p, rem);
  }

  /** A sequence laid out as `unroll` lays out its calls (a loop block of p
      indices from Start·N, then a residual block of rem indices from
      (Start + p)·rem) equals [Start, Start + p + rem) exactly when each block
      matches its part. */
  lemma CoversParts(u: seq<int>, n: nat, start: int, p: nat, rem: nat, end: int)
    requires n >= 1 && end == start + p + rem
    requires u == Range(start * n, start * n + p)
               + (if rem != 0 then Range((start + p) * rem, (start + p) * rem + rem) else [])
    ensures u == Range(start, end)
        <==> (p == 0 || start == 0 || n == 1) && (rem == 0 || rem == 1 || start + p == 0)
  {
    var s' := (start + p) * rem;
    var main := Range(start * n, start * n + p);
    var tail := if rem != 0 then Range(s', s' + rem) else [];
    var lo, hi := Range(start, start + p), Range(start + p, end);
    RangeAppend(start, start + p, end);
    MainPart(n, start, p);
    TailPart(start + p, rem, end);
    SplitIff(u, Range(start, end), main, tail, lo, hi,
             p == 0 || start == 0 || n == 1, rem == 0 || rem == 1 || start + p == 0);
  }

  /** What Euclidean division by N >= 1 gives, with q·N named p. */
  lemma DivFacts(n: nat, count: nat, q: int, p: int, rem: int)
    requires n >= 1 && q == count / n && rem == count % n && p == q * n
    ensures q >= 0 && p >= 0 && count == p + rem && 0 <= rem < n
    ensures q == 0 <==> p == 0
    ensures q == 0 <==> count < n
    ensures q > 0 ==> p >= n
  {
    MulNonneg(q, n);
    if q > 0 {
      MulPos(q, n);
    }
  }

  /** The loop block matches the start of [Start, Start + Count) exactly when it is
      empty, Start = 0 or N = 1. */
  lemma MainPart(n: nat, start: int, p: nat)
    requires n >= 1
    ensures Range(start * n, start * n + p) == Range(start, start + p) <==> p == 0 || start == 0 || n == 1
  {
    RangeEqual(start * n, start, p);
    FixedPoint(start, n);
  }

  /** The residual block, which starts at x·rem, matches [x, x + rem) exactly when
      it is empty, rem = 1 or x = 0. */
  lemma TailPart(x: int, rem: nat, end: int)
    requires end == x + rem
    ensures (if rem != 0 then Range(x * rem, x * rem + rem) else []) == Range(x, end)
        <==> rem == 0 || rem == 1 || x == 0
  {
    if rem != 0 {
      RangeEqual(x * rem, x, rem);
      FixedPoint(x, rem);
    }
  }

  /** The arithmetic behind UnrollCovers, with the product q·N named p. */
  lemma CoverArith(n: nat, start: int, count: nat, q: nat, p: nat, rem: nat)
    requires n >= 1 && count == p + rem && rem < n && rem == count % n
    requires q == 0 <==> p == 0
    requires q == 0 <==> count < n
    requires q > 0 ==> p >= n
    ensures ((p == 0 || start == 0 || n == 1) && (rem == 0 || rem == 1 || start + p == 0))
        <==> n == 1 || count <= 1 || (start == 0 && (count < n || count % n <= 1))
  {
  }

  lemma MulNonneg(a: nat, b: nat)
    ensures a * b >= 0
  {
  }

  lemma MulPos(a: nat, b: nat)
    requires a >= 1 && b >= 1
    ensures a * b >= b
  {
    MulLe(b, 1, a);
  }

  /** x·m == x exactly when x = 0 or m = 1. */
  lemma FixedPoint(x: int, m: int)
    ensures x * m == x <==> x == 0 || m == 1
  {
    assert x * m - x == x * (m - 1);
    if x != 0 && m != 1 {
      NonzeroProduct(x, m - 1);
    }
  }

  lemma NonzeroProduct(a: int, b: int)
    requires a != 0 && b != 0
    ensures a * b != 0
  {
  }

  lemma SplitIff(u: seq<int>, r: seq<int>, a: seq<int>, b: seq<int>, c: seq<int>, d: seq<int>,
                 front: bool, back: bool)
    requires u == a + b && r == c + d && |a| == |c|
    requires a == c <==> front
    requires b == d <==> back
    ensures u == r <==> front && back
  {
    SplitEqual(a, b, c, d);
  }

  lemma SplitEqual(a: seq<int>, b: seq<int>, c: seq<int>, d: seq<int>)
    requires |a| == |c|
    ensures a + b == c + d <==> a == c && b == d
  {
    if a + b == c + d {
      assert a == (a + b)[..|a|] && c == (c + d)[..|c|];
      assert b == (a + b)[|a|..] && d == (c + d)[|c|..];
    }
  }

  /** The evidently intended combinator: groups start at Start + g·N, so the
      residual starts right after the last full group. */
  function UnrollFixed(n: nat, start: int, count: nat): seq<int>
    requires n >= 1
    decreases n
  {
    var rem := count % n;
    UnrollFixedLoop(n, start, 0, count / n)
      + (if rem != 0 then UnrollFixed(rem, start + count - rem, rem) else [])
  }

  function UnrollFixedLoop(n: nat, start: int, g: nat, groups: nat): seq<int>
    decreases groups - g
  {
    if g >= groups then [] else UnrollImpl(start + g * n, n) + UnrollFixedLoop(n, start, g + 1, groups)
  }

  lemma {:induction false} UnrollFixedLoopBlock(n: nat, start: int, g: nat, groups: nat)
    requires g <= groups
    ensures UnrollFixedLoop(n, start, g, groups) == Range(start + g * n, start + groups * n)
    decreases groups - g
  {
    if g < groups {
      UnrollImplAscending(start + g * n, n);
      UnrollFixedLoopBlock(n, start, g + 1, groups);
      assert (g + 1) * n == g * n + n;
      MulLe(n, g + 1, groups);
      RangeAppend(start + g * n, start + g * n + n, start + groups * n);
    }
  }

  /** The corrected combinator visits [Start, Start + Count) in order for every N. */
  lemma {:induction false} UnrollFixedCovers(n: nat, start: int, count: nat)
    requires n >= 1
    ensures UnrollFixed(n, start, count) == Range(start, start + count)
    decreases n
  {
    var q, rem := count / n, count % n;
    var p := q * n;
    DivFacts(n, count, q, p, rem);
    UnrollFixedLoopBlock(n, start, 0, q);
    assert 0 * n == 0;
    var main := UnrollFixedLoop(n, start, 0, q);
    assert main == Range(start, start + p);
    if rem != 0 {
      var s := start + count - rem;
      assert s == start + p;
      UnrollFixedCovers(rem, s, rem);
      RangeAppend(start, s, start + count);
    }
  }

  /** At the instantiation the kernels use (N = UnrollNum = 1) the code as
      written and the corrected combinator make the same calls. */
  lemma UnrollAgreesAtOne(start: int, count: nat)
    ensures Unroll(UnrollNum, start, count) == UnrollFixed(UnrollNum, start, count)
  {
    UnrollOneAscending(start, count);
    UnrollFixedCovers(1, start, count);
  }
}
