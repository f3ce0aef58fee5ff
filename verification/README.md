# matvec-prod in Dafny

This project models the hand-written AVX kernels of matvec-prod. Each kernel
computes `out = M · in` for a small, compile-time sized row-major matrix `M`
with R rows and C ∈ {2, 4, 8} columns, in single (`f32`) or double (`f64`)
precision. The model covers five pieces of the library:

- the six `matvec_simd` overloads of `include/simd.hpp`;
- the compile-time loop combinators `for_each` and `unroll` of
  `include/utility.hpp`;
- the scalar reference `loop_::prod` of `include/bench.hpp`;
- the entry point `matvec::prod` of `include/bench.hpp`, which picks an overload
  by element type and column count;
- the unpadded row-major layout of `Mat`.

How the model is built:

- **Exact arithmetic.** Numbers are `real`. Every vector instruction is a pure
  function on lane sequences, with lane 0 first (`Intrinsics`). A load or
  store that would touch memory outside its buffer gives `None`, so "the
  kernel returns `Some`" also proves that every access stays in bounds.
- **Separate buffers.** The matrix, the input and the output are three
  separate sequences. A call where the output shares memory with the input
  or the matrix is not modelled (see "## Left out").
- **Steps.** A kernel body is its prologue (filling the input register),
  then a list of steps (`Steps.Step`): calls of its `batch_k` lambdas and, in
  the `f64` two-column overload, assignments of the `in_2` register. A step
  list is fixed by R alone. `batch_k(i)` owns output rows k·i … k·i+k-1.
- **Per-overload proofs.** For each overload (`F32Cols8` … `F64Cols2`) the
  model proves four things:
  - each lambda leaves the exact products of its rows in its result register;
  - each lambda overwrites exactly those rows of `out` and nothing else;
  - the `unroll`/`if constexpr` ladder lays the lambdas' rows end to end over
    [0, R), each row once and in ascending order;
  - the ladder only calls lambdas the overload defines.
- **The whole product.** `Kernels` runs the steps generically and proves that
  every overload, for every R, yields exactly `MatVec`. `Dispatch` lifts this
  to `matvec::prod` and to agreement with `loop_::prod`.

## Model

| member | source | states |
|---|---|---|
| `Unrolling.UnrollImplAscending` | include/utility.hpp:30-33 | `unroll_impl(fn, start, make_index_sequence<n>)` calls fn(start), …, fn(start+n-1): each once, in ascending order |
| `Unrolling.ForEachAscending` | include/utility.hpp:26-37 | `for_each<Start, End>` calls fn with Start, …, End-1: each once, ascending |
| `Unrolling.UnrollMainGroups` | include/utility.hpp:53-55 | the `for` loop of `unroll` runs Count/N iterations, and iteration g is one `unroll_impl` group covering (Start+g)·N … (Start+g)·N+N-1 |
| `Unrolling.UnrollResidualOnce` | include/utility.hpp:56-58 | the residual instantiation `unroll<rem, S, rem>` makes exactly one group, at S·rem, and recurses no further |
| `Unrolling.UnrollLength` | include/utility.hpp:51-60 | every instantiation calls fn exactly Count times |
| `Unrolling.UnrollShape` | include/utility.hpp:53-58 | as written, the calls are one block from Start·N of length (Count/N)·N, then, if rem = Count % N ≠ 0, rem calls starting at (Start+Count-rem)·rem |
| `Unrolling.UnrollCovers` | include/utility.hpp:51-60 | as written, `unroll<N, Start, Count>` visits Start … Start+Count-1 in order if and only if N = 1, Count ≤ 1, or Start = 0 with either Count < N or Count % N ≤ 1 |
| `Unrolling.UnrollOneAscending` | include/utility.hpp:51-60 | with N = 1, `unroll` visits Start … Start+Count-1 once each, ascending, with no residual call |
| `Unrolling.UnrollFourZeroSeven` | include/utility.hpp:53-58 | `unroll<4, 0, 7>` visits 0, 1, 2, 3, 12, 13, 14 rather than 0 … 6 |
| `Unrolling.UnrollFixedCovers` | include/utility.hpp:51-60 | with groups placed at Start + g·N, `unroll` visits Start … Start+Count-1 in order for every N ≥ 1 |
| `Unrolling.UnrollAgreesAtOne` | include/simd.hpp:7 | at `UnrollNum` = 1, the value every overload uses, the combinator as written and the corrected one make the same calls |
| `Layout.OffsetInRange` | include/bench.hpp:48-55 | in an unpadded row-major R×C matrix, element (i, j) lies at i·C + j, inside the R·C buffer |
| `Layout.OffsetInjective` | include/bench.hpp:48-55 | distinct (row, column) pairs occupy distinct buffer positions |
| `Layout.RowDotAt` | include/bench.hpp:117-122 | a row's product computed on the flat buffer equals Σ_j M(i, j)·in[j] taken over the matrix's own indexing |
| `Layout.DotIsSum` | include/bench.hpp:119-121 | the inner loop's running total after n columns is the left-to-right sum of the first n lane products |
| `Layout.LoopProd` | include/bench.hpp:107-123 | `loop_::prod` leaves out[i] = Σ_j mat[i·C+j]·in[j] for every row i, whatever `out` held before |
| `Intrinsics.LoadMul` | include/simd.hpp:80-82 | loading n matrix elements and multiplying lane-wise by the n input lanes gives that stretch's lane products |
| `Intrinsics.LoadMulRev` | include/simd.hpp:320-325 | the same with the input register as the left operand |
| `Intrinsics.LoadMulTwice` | include/simd.hpp:124-131 | 2n matrix elements times a register holding the input twice give the lane products of two consecutive rows |
| `Intrinsics.PairLane` | include/simd.hpp:189-226 | for a two-column matrix, two adjacent lanes holding a row times the input add up to that row's product, in either operand order |
| `Intrinsics.HaddPdReduce` | include/simd.hpp:327-329 | `_mm256_hadd_pd` of two 4-lane product registers, then high half plus low half, leaves each register's total in its own lane |
| `Intrinsics.HalvesReduce` | include/simd.hpp:335-337 | high half plus low half of a 4-lane product register, then the two lanes added, gives the register's total |
| `Intrinsics.PermutePsSwapHalves` | include/simd.hpp:89 | `_mm_permute_ps(x, 0x4E)` swaps the two 64-bit halves |
| `Intrinsics.PermutePdSwap` | include/simd.hpp:385 | `_mm_permute_pd(x, 1)` swaps the two lanes |
| `Intrinsics.MoveHLSelf` | include/simd.hpp:153 | `_mm_movehl_ps(x, x)` repeats the high half in both halves |
| `F32Cols8.Batch4Tree` | include/simd.hpp:37-50 | the two rounds of `_mm256_hadd_ps` and the fold of the high half onto the low half leave the totals of the four product registers in lanes 0-3, in order |
| `F32Cols8.Batch2Tree` | include/simd.hpp:64-73 | the `batch_2` reduction leaves the totals of the two product registers in lanes 0 and 1 |
| `F32Cols8.Batch1Tree` | include/simd.hpp:85-99 | the `batch_1` reduction leaves the register's total in lane 0 |
| `F32Cols8.Batch4Exact` | include/simd.hpp:24-53 | the register `batch_4(i)` stores holds the exact products of rows 4i … 4i+3, in order |
| `F32Cols8.Batch2Exact` | include/simd.hpp:55-77 | `batch_2(i)` computes the exact products of rows 2i and 2i+1 in lanes 0 and 1 |
| `F32Cols8.Batch1Exact` | include/simd.hpp:79-101 | `batch_1(i)` computes the exact product of row i in lane 0 |
| `F32Cols8.Batch4Writes` | include/simd.hpp:24-53 | `batch_4(i)` stays in bounds and overwrites rows 4i … 4i+3 with their products, leaving every other element of `out` unchanged |
| `F32Cols8.Batch2Writes` | include/simd.hpp:55-77 | `batch_2(i)` overwrites rows 2i and 2i+1 with their products, and nothing else |
| `F32Cols8.Batch1Writes` | include/simd.hpp:79-101 | `batch_1(i)` overwrites row i with its product, and nothing else |
| `F32Cols8.RunBatchWrites` | include/simd.hpp:24-101 | every lambda of the 8-column `f32` overload, called on rows inside [0, R), overwrites exactly its rows with their products |
| `F32Cols8.ScheduleCovers` | include/simd.hpp:102-109 | `unroll` of `batch_4`, then `batch_2(R/2 - 1)` when R % 4 ≥ 2, then `batch_1(R - 1)` when R is odd, writes rows 0 … R-1 once each, ascending |
| `F32Cols8.ScheduleSizes` | include/simd.hpp:102-109 | the ladder calls only `batch_4`, `batch_2` and `batch_1` |
| `F32Cols4.Batch4Tree` | include/simd.hpp:135-138 | one `_mm256_hadd_ps` and two shuffles leave, in lanes 0-3, the sums of the four 4-lane halves of the two product registers |
| `F32Cols4.Batch1Tree` | include/simd.hpp:146-155 | `_mm_movehdup_ps`, add, `_mm_movehl_ps`, add leaves the 4-lane total in lane 0 |
| `F32Cols4.Batch4Exact` | include/simd.hpp:124-140 | with the input loaded into both halves, `batch_4(i)` holds the exact products of rows 4i … 4i+3 |
| `F32Cols4.Batch1Exact` | include/simd.hpp:142-157 | `batch_1(i)`, which reloads the input from memory, computes the exact product of row i |
| `F32Cols4.Batch4Writes` | include/simd.hpp:124-140 | `batch_4(i)` overwrites rows 4i … 4i+3 with their products, and nothing else |
| `F32Cols4.Batch1Writes` | include/simd.hpp:142-157 | `batch_1(i)` overwrites row i with its product, and nothing else |
| `F32Cols4.RunBatchWrites` | include/simd.hpp:124-157 | every lambda of the 4-column `f32` overload overwrites exactly its rows with their products |
| `F32Cols4.ScheduleCovers` | include/simd.hpp:158-166 | `unroll` of `batch_4`, the two `batch_1` calls on rows 2·(R/2)-2 and 2·(R/2)-1 when R % 4 ≥ 2, then `batch_1(R - 1)` when R is odd, write rows 0 … R-1 once each, ascending |
| `F32Cols4.ScheduleSizes` | include/simd.hpp:158-166 | the ladder calls only `batch_4` and `batch_1` |
| `F32Cols2.PrologueTiles` | include/simd.hpp:179-186 | the prologue reads only in[0] and in[1] and repeats them across the eight lanes |
| `F32Cols2.Batch8Tree` | include/simd.hpp:198-200 | `_mm256_hadd_ps` followed by the shuffle puts the eight pair sums in row order |
| `F32Cols2.Batch4Tree` | include/simd.hpp:210-212 | even lanes plus odd lanes give the four pair sums in row order |
| `F32Cols2.TiledLanes` | include/simd.hpp:189-214 | eight matrix elements times the tiled input give, pair by pair, the products of four consecutive rows |
| `F32Cols2.Batch8Exact` | include/simd.hpp:189-203 | `batch_8(i)` holds the exact products of rows 8i … 8i+7, in order |
| `F32Cols2.Batch4Exact` | include/simd.hpp:205-214 | `batch_4(i)` holds the exact products of rows 4i … 4i+3, in order |
| `F32Cols2.Batch2Exact` | include/simd.hpp:216-227 | `batch_2(i)`, defined but never called, would compute the products of rows 2i and 2i+1 |
| `F32Cols2.Batch1Exact` | include/simd.hpp:229-231 | the scalar `batch_1(i)` computes the exact product of row i |
| `F32Cols2.Batch8Writes` | include/simd.hpp:189-203 | `batch_8(i)` overwrites rows 8i … 8i+7 with their products, and nothing else |
| `F32Cols2.Batch4Writes` | include/simd.hpp:205-214 | `batch_4(i)` overwrites rows 4i … 4i+3 with their products, and nothing else |
| `F32Cols2.Batch2Writes` | include/simd.hpp:216-227 | `batch_2(i)` would overwrite rows 2i and 2i+1 with their products, and nothing else |
| `F32Cols2.Batch1Writes` | include/simd.hpp:229-231 | `batch_1(i)` overwrites row i with its product, and nothing else |
| `F32Cols2.RunBatchWrites` | include/simd.hpp:189-231 | every lambda of the 2-column `f32` overload overwrites exactly its rows with their products |
| `F32Cols2.ScheduleCovers` | include/simd.hpp:232-245 | `unroll` of `batch_8`, `batch_4(R/4 - 1)` when R % 8 ≥ 4, the two `batch_1` calls when R % 4 ≥ 2, then `batch_1(R - 1)` when R is odd, write rows 0 … R-1 once each, ascending |
| `F32Cols2.ScheduleSizes` | include/simd.hpp:232-245 | the ladder calls `batch_8`, `batch_4` and `batch_1`, never `batch_2` |
| `F64Cols8.PrologueLoads` | include/simd.hpp:260-261 | the two 4-lane loads together hold the whole 8-element input |
| `F64Cols8.HalfRows` | include/simd.hpp:263-299 | one row's two 4-lane halves, folded either by a multiply and an FMA or by two multiplies and an add, give four lanes that sum to the row's product |
| `F64Cols8.FoldSum` | include/simd.hpp:269-273 | the four lanes of the multiply-then-FMA fold add up to all eight column products |
| `F64Cols8.AddIsFold` | include/simd.hpp:287-292 | the plain multiply-add fold of `batch_1` gives the same lanes as the FMA fold of `batch_2` |
| `F64Cols8.Batch2Exact` | include/simd.hpp:263-280 | `batch_2(i)` computes the exact products of rows 2i and 2i+1 |
| `F64Cols8.Batch1Exact` | include/simd.hpp:282-299 | `batch_1(i)` computes the exact product of row i |
| `F64Cols8.Batch2Writes` | include/simd.hpp:263-280 | `batch_2(i)` overwrites rows 2i and 2i+1 with their products, and nothing else |
| `F64Cols8.Batch1Writes` | include/simd.hpp:282-299 | `batch_1(i)` overwrites row i with its product, and nothing else |
| `F64Cols8.RunBatchWrites` | include/simd.hpp:263-299 | every lambda of the 8-column `f64` overload overwrites exactly its rows with their products |
| `F64Cols8.ScheduleCovers` | include/simd.hpp:301-305 | `unroll` of `batch_2`, then `batch_1(R - 1)` when R is odd, writes rows 0 … R-1 once each, ascending |
| `F64Cols8.ScheduleSizes` | include/simd.hpp:301-305 | the ladder calls only `batch_2` and `batch_1` |
| `F64Cols4.Batch2Exact` | include/simd.hpp:320-331 | `batch_2(i)` computes the exact products of rows 2i and 2i+1 |
| `F64Cols4.Batch1Exact` | include/simd.hpp:332-338 | `batch_1(i)` computes the exact product of row i |
| `F64Cols4.Batch2Writes` | include/simd.hpp:320-331 | `batch_2(i)` overwrites rows 2i and 2i+1 with their products, and nothing else |
| `F64Cols4.Batch1Writes` | include/simd.hpp:332-338 | `batch_1(i)` overwrites row i with its product, and nothing else |
| `F64Cols4.RunBatchWrites` | include/simd.hpp:320-338 | every lambda of the 4-column `f64` overload overwrites exactly its rows with their products |
| `F64Cols4.ScheduleCovers` | include/simd.hpp:340-344 | `unroll` of `batch_2`, then `batch_1(R - 1)` when R is odd, writes rows 0 … R-1 once each, ascending |
| `Steps.PairLadderCovers` | include/simd.hpp:301-305 | the ladder shared by the 64-bit eight- and four-column overloads (`unroll` of `batch_2`, then `batch_1(R - 1)` when R is odd) writes rows 0 … R-1 once each, ascending |
| `F64Cols4.ScheduleSizes` | include/simd.hpp:340-344 | the ladder calls only `batch_2` and `batch_1` |
| `F64Cols2.PrologueTwice` | include/simd.hpp:358 | `in` holds the two input values twice, and the `in_2` assignment loads exactly the input |
| `F64Cols2.Batch4Exact` | include/simd.hpp:361-380 | `batch_4(i)` holds the exact products of rows 4i … 4i+3, in row order after its cross-lane shuffle |
| `F64Cols2.PairSumExact` | include/simd.hpp:382-395 | each half of `batch_2` (multiply by `in_2`, swap lanes, add) yields its row's product |
| `F64Cols2.Batch1Exact` | include/simd.hpp:397-401 | `batch_1(i)` computes the exact product of row i |
| `F64Cols2.Batch4Writes` | include/simd.hpp:361-380 | `batch_4(i)` overwrites rows 4i … 4i+3 with their products, and nothing else |
| `F64Cols2.Batch2Writes` | include/simd.hpp:382-395 | once `in_2` holds the input, `batch_2(i)` overwrites rows 2i and 2i+1 with their products, and nothing else |
| `F64Cols2.Batch2NeedsIn2` | include/simd.hpp:382-395 | `batch_2` reads `in_2`, so running it before `in_2` is assigned does not yield a result |
| `F64Cols2.Batch1Writes` | include/simd.hpp:397-401 | `batch_1(i)` overwrites row i with its product, and nothing else |
| `F64Cols2.RunBatchWrites` | include/simd.hpp:361-401 | every lambda of the 2-column `f64` overload, with `in_2` holding the input, overwrites exactly its rows with their products |
| `F64Cols2.ShortWrites` | include/simd.hpp:405-407 | the R % 4 = 1, R < 12 branch (`in_2` load, then `unroll` of `batch_2`) writes rows 0 … 2·(R/2)-1 once each, ascending |
| `F64Cols2.LongWrites` | include/simd.hpp:408-413 | the general branch (`unroll` of `batch_4`, then `in_2` and `batch_2(R/2 - 1)` when R % 4 ≥ 2) writes rows 0 … 2·(R/2)-1 once each, ascending |
| `F64Cols2.SplitWrites` | include/simd.hpp:403-414 | each of the three branches writes rows 0 … 2·(R/2)-1 once each, ascending |
| `F64Cols2.ScheduleCovers` | include/simd.hpp:403-417 | the branches plus `batch_1(R - 1)` when R is odd write rows 0 … R-1 once each, ascending |
| `F64Cols2.ScheduleSizes` | include/simd.hpp:403-417 | the body calls only `batch_4`, `batch_2` and `batch_1` |
| `F64Cols2.ScheduleLoadsIn2` | include/simd.hpp:403-414 | every call of `batch_2` comes after an assignment of `in_2` |
| `Kernels.PrologueExact` | include/simd.hpp:11-418 | each overload's prologue reads only the C input elements and fills its input register(s) as its lambdas expect |
| `Kernels.ScheduleFacts` | include/simd.hpp:11-418 | each overload's ladder covers [0, R) with lambdas it defines, and the `f64` two-column one assigns `in_2` before any `batch_2` |
| `Kernels.ScheduleFits` | include/simd.hpp:11-418 | each overload only calls its lambdas on rows inside [0, R) |
| `Kernels.BatchWrites` | include/simd.hpp:11-418 | every defined lambda of every overload, on rows inside [0, R), overwrites exactly its rows with their products |
| `Kernels.ExecWrites` | include/simd.hpp:11-418 | running a body's steps in order never fails and overwrites exactly the rows of their footprints with their products |
| `Kernels.UpdatedAll` | include/simd.hpp:11-418 | once every row of [0, R) has been overwritten with its product, `out` is the matrix-vector product |
| `Kernels.MatvecSimdCorrect` | include/simd.hpp:11-418 | for every R, each overload stays inside its buffers and leaves `out` = M·in exactly, whatever `out` held before |
| `Dispatch.SelectMatches` | include/bench.hpp:125-133 | `matvec::prod` finds an overload exactly for 2, 4 and 8 columns, and the one it finds has the matrix's element type and column count |
| `Dispatch.SelectComplete` | include/bench.hpp:125-133 | every overload is reached by its own element type and column count |
| `Dispatch.ProdCorrect` | include/bench.hpp:125-133 | for a supported column count, `matvec::prod` leaves the exact product in `out` |
| `Dispatch.ProdUnsupported` | include/bench.hpp:125-133 | any other column count has no overload |
| `Dispatch.ProdMatchesLoop` | include/bench.hpp:107-133 | on the same operands, `matvec::prod` and `loop_::prod` leave the same `out` |

## Left out

- Floating-point rounding: arithmetic is exact over the reals. The kernels
  add in a different order from `loop_::prod`, and `_mm256_fmadd_pd` rounds
  once where a multiply and an add round twice, so the real kernels agree with
  the loop only up to rounding. The model proves that both compute the same
  exact sum.
- Integer width: offsets such as `32 * i` and `i * Cols + j` are unbounded
  integers. A 32-bit `int` overflow would need R·C beyond 2^31, and the library
  only instantiates small compile-time sizes.
- `eigen_::prod` and `blaze_::prod` (include/bench.hpp:97-105) call into Eigen
  and Blaze, whose source is not part of this model.
- The benchmark harness, timers, random matrix filling, the test drivers under
  test/, and draw_plots.py: I/O, clocks and randomness.
- Alignment, `NOINLINE`/`INLINE`, register allocation and instruction
  scheduling: they do not change the values computed. `RESTRICT` does matter,
  as the next two lines explain.
- Dispatch.ProdCorrect: assumes that the output does not overlap the matrix
  or the input, because `mat`, `vec` and `out0` are separate sequences.
  Only `loop_::prod` marks its pointers `RESTRICT`
  (include/bench.hpp:113-115). `matvec_simd` does not
  (include/simd.hpp:11-12, 171-172), and `matvec::prod` accepts the same
  vector as input and output (include/bench.hpp:126-132). In that case the
  kernels return a different answer: for f32 with two columns,
  `batch_1(0)` stores into `in[0]` before `batch_1(1)` reads it
  (include/simd.hpp:229-231, 240-241), so row 1 is not multiplied by the
  original input. The kernels do not check for overlap, and the model states
  the result only for separate buffers.
- Kernels.MatvecSimdCorrect: assumes the same no-overlap condition, for the
  same reason.
- Compile-time rejection: a column count without an overload, a negative
  `End - Start` in `for_each`, and N = 0 in `unroll` do not compile. The model
  returns `None` for the first and excludes the others by preconditions.
- The comments at include/simd.hpp:147-152 describe lane contents that do not
  match the intrinsics. The comment at include/simd.hpp:396 speaks of two
  rows where `batch_1` handles one. The model follows the intrinsics.
- `unroll` is modelled as the sequence of indices it passes to `fn`. Inlining
  and the actual code generated are not modelled.
- The prologue of every overload loads `in` even when R = 0. The model does
  the same, so an R = 0 call still needs a C-element input.

## Findings

| source | as written | input that shows it | evidently intended | confidence | as-written member | corrected member |
|---|---|---|---|---|---|---|
| include/utility.hpp:53-58 | iteration i of the loop calls fn at i·N … i·N+N-1 with i starting at Start, and the residual starts at (Start+Count-rem)·rem, so both blocks are scaled by a block size | `unroll<4, 0, 7>` calls fn with 0, 1, 2, 3, 12, 13, 14; any Start ≠ 0 with N > 1 is shifted as well | fn is called with Start, …, Start+Count-1 in order | not executed; latent, since every instantiation in the repository uses N = UnrollNum = 1, where both versions agree | `Unrolling.UnrollFourZeroSeven` | `Unrolling.UnrollFixedCovers` |
