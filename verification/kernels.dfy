/** The six `matvec_simd` overloads behind one interface, and the generic
    execution of a kernel body: the prologue loads the input registers, then
    the body's steps run in order against the output buffer. */
module Kernels {
  import opened Optional
  import opened Indices
  import opened Layout
  import opened Intrinsics
  import opened Steps
  import F32Cols8
  import F32Cols4
  import F32Cols2
  import F64Cols8
  import F64Cols4
  import F64Cols2

  /** One overload: element type and column count. */
  datatype Kernel = F32x8 | F32x4 | F32x2 | F64x8 | F64x4 | F64x2

  function Cols(k: Kernel): (c: nat)
    ensures c in {2, 4, 8}
  {
    match k
    case F32x8 => 8
    case F32x4 => 4
    case F32x2 => 2
    case F64x8 => 8
    case F64x4 => 4
    case F64x2 => 2
  }

  /** Lanes of the input register(s) the prologue fills. */
  function RegWidth(k: Kernel): nat {
    match k
    case F64x4 => 4
    case F64x2 => 4
    case _ => 8
  }

  /** The batch lambdas each overload defines. */
  function Sizes(k: Kernel): set<nat> {
    match k
    case F32x8 => F32Cols8.Sizes
    case F32x4 => F32Cols4.Sizes
    case F32x2 => F32Cols2.Sizes
    case F64x8 => F64Cols8.Sizes
    case F64x4 => F64Cols4.Sizes
    case F64x2 => F64Cols2.Sizes
  }

  function Prologue(k: Kernel, vec: seq<Num>): (r: Option<seq<Num>>)
    ensures r.Some? ==> |r.value| == RegWidth(k)
  {
    match k
    case F32x8 => F32Cols8.Prologue(vec)
    case F32x4 => F32Cols4.Prologue(vec)
    case F32x2 => F32Cols2.Prologue(vec)
    case F64x8 => F64Cols8.Prologue(vec)
    case F64x4 => F64Cols4.Prologue(vec)
    case F64x2 => F64Cols2.Prologue(vec)
  }

  /** The steps of the body for R rows. */
  function Schedule(k: Kernel, R: nat): seq<Step> {
    match k
    case F32x8 => F32Cols8.Schedule(R)
    case F32x4 => F32Cols4.Schedule(R)
    case F32x2 => F32Cols2.Schedule(R)
    case F64x8 => F64Cols8.Schedule(R)
    case F64x4 => F64Cols4.Schedule(R)
    case F64x2 => F64Cols2.Schedule(R)
  }

  function RunBatch(k: Kernel, size: nat, mat: seq<Num>, vec: seq<Num>, reg: seq<Num>, in2: Option<seq<Num>>,
                    out: seq<Num>, i: int): Option<seq<Num>>
    requires |reg| == RegWidth(k) && (in2.Some? ==> |in2.value| == 2)
  {
    match k
    case F32x8 => F32Cols8.RunBatch(size, mat, reg, out, i)
    case F32x4 => F32Cols4.RunBatch(size, mat, vec, reg, out, i)
    case F32x2 => F32Cols2.RunBatch(size, mat, vec, reg, out, i)
    case F64x8 => F64Cols8.RunBatch(size, mat, reg, out, i)
    case F64x4 => F64Cols4.RunBatch(size, mat, reg, out, i)
    case F64x2 => F64Cols2.RunBatch(size, mat, vec, reg, in2, out, i)
  }

  /** What the body can change: the output buffer and the register `in_2`. */
  datatype State = State(out: seq<Num>, in2: Option<seq<Num>>)

  predicate In2Shape(st: State) {
    st.in2.Some? ==> |st.in2.value| == 2
  }

  function StepOnce(k: Kernel, mat: seq<Num>, vec: seq<Num>, reg: seq<Num>, st: State, s: Step): (r: Option<State>)
    requires |reg| == RegWidth(k) && In2Shape(st)
    ensures r.Some? ==> In2Shape(r.value)
  {
    match s
    case LoadIn2 =>
      var r2 :- F64Cols2.LoadIn2(vec);
      Some(State(st.out, Some(r2)))
    case Batch(size, i) =>
      var out' :- RunBatch(k, size, mat, vec, reg, st.in2, st.out, i);
      Some(State(out', st.in2))
  }

  /** The steps in order; the first failing step (an out-of-range access, an
      unassigned register, a missing lambda) makes the whole run fail. */
  function Exec(k: Kernel, mat: seq<Num>, vec: seq<Num>, reg: seq<Num>, st: State, steps: seq<Step>): Option<State>
    requires |reg| == RegWidth(k) && In2Shape(st)
    decreases |steps|
  {
    if |steps| == 0 then Some(st)
    else
      var st' :- StepOnce(k, mat, vec, reg, st, steps[0]);
      Exec(k, mat, vec, reg, st', steps[1..])
  }

  /** `matvec_simd<R>(mat, in, out, int_constant<C>)`: the output buffer after the call. */
  function MatvecSimd(k: Kernel, R: nat, mat: seq<Num>, vec: seq<Num>, out0: seq<Num>): Option<seq<Num>> {
    var reg :- Prologue(k, vec);
    var st :- Exec(k, mat, vec, reg, State(out0, None), Schedule(k, R));
    Some(st.out)
  }

  /** The input register(s) the prologue should produce from a C-element input. */
  function Reg(k: Kernel, vec: seq<Num>): (r: seq<Num>)
    requires |vec| == Cols(k)
    ensures |r| == RegWidth(k)
  {
    match k
    case F32x8 => vec
    case F32x4 => vec + vec
    case F32x2 => F32Cols2.Tiled(vec)
    case F64x8 => vec
    case F64x4 => vec
    case F64x2 => vec + vec
  }

  /** The prologue only reads the C input elements and fills the registers as intended. */
  lemma PrologueExact(k: Kernel, vec: seq<Num>)
    requires |vec| == Cols(k)
    ensures Prologue(k, vec) == Some(Reg(k, vec))
  {
    assert vec[0..|vec|] == vec;
    match k
    case F32x2 => F32Cols2.PrologueTiles(vec);
    case F64x8 => F64Cols8.PrologueLoads(vec);
    case _ =>
  }

  /** Each overload's ladder covers [0, R) with lambdas it defines, all of size at least 1. */
  lemma ScheduleFacts(k: Kernel, R: nat)
    ensures Writes(Schedule(k, R)) == Range(0, R)
    ensures UsesSizes(Schedule(k, R), Sizes(k))
    ensures k == F64x2 ==> LoadedBefore(Schedule(k, R), 2, false)
  {
    match k
    case F32x8 => F32Cols8.ScheduleCovers(R); F32Cols8.ScheduleSizes(R);
    case F32x4 => F32Cols4.ScheduleCovers(R); F32Cols4.ScheduleSizes(R);
    case F32x2 => F32Cols2.ScheduleCovers(R); F32Cols2.ScheduleSizes(R);
    case F64x8 => F64Cols8.ScheduleCovers(R); F64Cols8.ScheduleSizes(R);
    case F64x4 => F64Cols4.ScheduleCovers(R); F64Cols4.ScheduleSizes(R);
    case F64x2 => F64Cols2.ScheduleCovers(R); F64Cols2.ScheduleSizes(R); F64Cols2.ScheduleLoadsIn2(R);
  }

  /** Every defined lambda, called on rows inside [0, R) with the prologue's
      registers (and, for batch_2 of the 64-bit two-column overload, `in_2`
      assigned), overwrites exactly its rows with their exact products. */
  lemma BatchWrites(k: Kernel, size: nat, mat: seq<Num>, vec: seq<Num>, R: nat, in2: Option<seq<Num>>,
                    out: seq<Num>, i: int)
    requires |mat| == R * Cols(k) && |vec| == Cols(k) && |out| == R
    requires size in Sizes(k) && 0 <= size * i && size * i + size <= R
    requires in2 == None || in2 == Some(vec[..2])
    requires k == F64x2 && size == 2 ==> in2.Some?
    ensures var r := RunBatch(k, size, mat, vec, Reg(k, vec), in2, out, i);
      r.Some? && Updated(out, r.value, mat, vec, R, Cols(k), Rows(Batch(size, i)))
  {
    match k
    case F32x8 => F32Cols8.RunBatchWrites(size, mat, vec, R, out, i);
    case F32x4 => F32Cols4.RunBatchWrites(size, mat, vec, R, out, i);
    case F32x2 => F32Cols2.RunBatchWrites(size, mat, vec, R, out, i);
    case F64x8 => F64Cols8.RunBatchWrites(size, mat, vec, R, out, i);
    case F64x4 => F64Cols4.RunBatchWrites(size, mat, vec, R, out, i);
    case F64x2 =>
      assert vec[..2] == vec;
      F64Cols2.RunBatchWrites(size, mat, vec, R, out, i);
      assert RunBatch(k, size, mat, vec, Reg(k, vec), in2, out, i)
          == F64Cols2.RunBatch(size, mat, vec, vec + vec, Some(vec), out, i);
  }

  lemma LoadedTail(steps: seq<Step>, loaded: bool)
    requires |steps| > 0 && LoadedBefore(steps, 2, loaded)
    ensures LoadedBefore(steps[1..], 2, loaded || steps[0] == Step.LoadIn2)
  {
    forall n | 0 <= n < |steps[1..]| && steps[1..][n].Batch? && steps[1..][n].size == 2
      ensures loaded || steps[0] == Step.LoadIn2 || Step.LoadIn2 in steps[1..][..n]
    {
      assert steps[..n + 1] == [steps[0]] + steps[1..][..n];
    }
  }

  /** Running a well-formed step list from a state whose `in_2` is either
      unassigned or the input's first two elements succeeds and overwrites
      exactly the rows of the steps' footprints with their exact products. */
  lemma {:induction false} ExecWrites(k: Kernel, mat: seq<Num>, vec: seq<Num>, R: nat, st: State, steps: seq<Step>)
    requires |mat| == R * Cols(k) && |vec| == Cols(k) && |st.out| == R
    requires st.in2 == None || st.in2 == Some(vec[..2])
    requires FitsRows(steps, R) && UsesSizes(steps, Sizes(k))
    requires k == F64x2 ==> LoadedBefore(steps, 2, st.in2.Some?)
    ensures var r := Exec(k, mat, vec, Reg(k, vec), st, steps);
      r.Some? && Updated(st.out, r.value.out, mat, vec, R, Cols(k), Writes(steps))
    decreases |steps|
  {
    var reg := Reg(k, vec);
    if |steps| == 0 {
      UpdatedNothing(st.out, mat, vec, R, Cols(k));
    } else {
      var s := steps[0];
      var st' := StepOnce(k, mat, vec, reg, st, s).value by {
        if s.Batch? {
          assert FitsRows(steps, R) && steps[0].Batch?;
          BatchWrites(k, s.size, mat, vec, R, st.in2, st.out, s.index);
        }
      }
      if s.Batch? {
        BatchWrites(k, s.size, mat, vec, R, st.in2, st.out, s.index);
      } else {
        UpdatedNothing(st.out, mat, vec, R, Cols(k));
      }
      if k == F64x2 {
        LoadedTail(steps, st.in2.Some?);
      }
      ExecWrites(k, mat, vec, R, st', steps[1..]);
      UpdatedThen(st.out, st'.out, Exec(k, mat, vec, reg, st', steps[1..]).value.out, mat, vec, R, Cols(k),
                  Rows(s), Writes(steps[1..]));
    }
  }

  /** Footprint [0, R) means every row was overwritten with its exact product. */
  lemma UpdatedAll(out0: seq<Num>, out: seq<Num>, mat: seq<Num>, vec: seq<Num>, R: nat, C: nat)
    requires |mat| == R * C && |vec| == C && |out0| == R
    requires Updated(out0, out, mat, vec, R, C, Range(0, R))
    ensures out == MatVec(mat, vec, R, C)
  {
    forall x | 0 <= x < R
      ensures out[x] == RowDot(mat, vec, R, C, x)
    {
      InRange(0, R, x);
    }
    LoopIsMatVec(mat, vec, R, C, out);
  }

  /** Each overload's body only calls lambdas it defines, on rows inside [0, R). */
  lemma ScheduleFits(k: Kernel, R: nat)
    ensures FitsRows(Schedule(k, R), R) && UsesSizes(Schedule(k, R), Sizes(k))
    ensures k == F64x2 ==> LoadedBefore(Schedule(k, R), 2, false)
  {
    var steps := Schedule(k, R);
    ScheduleFacts(k, R);
    assert 0 !in Sizes(k);
    CoveredSizesFit(steps, Sizes(k), R);
  }

  /** Each overload, given a C-element input, an R·C-element row-major matrix and
      an R-element output, stays inside those buffers and leaves in the output
      exactly the matrix-vector product, whatever the output held before. */
  lemma MatvecSimdCorrect(k: Kernel, R: nat, mat: seq<Num>, vec: seq<Num>, out0: seq<Num>)
    requires |mat| == R * Cols(k) && |vec| == Cols(k) && |out0| == R
    ensures MatvecSimd(k, R, mat, vec, out0) == Some(MatVec(mat, vec, R, Cols(k)))
  {
    PrologueExact(k, vec);
    var steps := Schedule(k, R);
    ScheduleFits(k, R);
    ScheduleFacts(k, R);
    ExecWrites(k, mat, vec, R, State(out0, None), steps);
    var st := Exec(k, mat, vec, Reg(k, vec), State(out0, None), steps).value;
    UpdatedAll(out0, st.out, mat, vec, R, Cols(k));
  }
}
