/**
 * The metric record types of crates/utils/src/types.rs: the per-opcode record with its
 * SLOAD duration ladder, and the CacheDb record of hits, misses and miss penalties.
 *
 * Rust's fixed-size arrays are Dafny arrays updated in place; every
 * `checked_add(..).expect("overflow")` becomes a requires clause saying that the sum fits
 * the width of the field (the fields have subset types of that width).
 */
module Types {
  import opened Wrappers

  const U64_MAX: int := 0xFFFF_FFFF_FFFF_FFFF
  const I64_MIN: int := -0x8000_0000_0000_0000
  const I64_MAX: int := 0x7FFF_FFFF_FFFF_FFFF
  const I128_MIN: int := -0x8000_0000_0000_0000_0000_0000_0000_0000
  const I128_MAX: int := 0x7FFF_FFFF_FFFF_FFFF_FFFF_FFFF_FFFF_FFFF

  type U8 = x: int | 0 <= x < 0x100
  type U64 = x: int | 0 <= x <= U64_MAX
  type I64 = x: int | I64_MIN <= x <= I64_MAX
  type I128 = x: int | I128_MIN <= x <= I128_MAX

  /** One slot per opcode byte. */
  const OPCODE_COUNT: nat := 256
  /** The SLOAD opcode, whose durations are also sorted into a ladder. */
  const SLOAD: U8 := 0x54
  /** The rungs of the SLOAD duration ladder: a duration goes to the first rung it is below. */
  const STEP_LEN: nat := 4
  const SLOAD_OPCODE_TIME_STEP: seq<U64> := [1, 10, 100, U64_MAX]

  /** One entry of `opcode_record`: (opcode counter, time, gas). */
  datatype OpcodeStat = OpcodeStat(count: U64, time: U64, gas: I128)
  /** One entry of `sload_opcode_record`: (rung of the ladder, SLOAD counter). */
  datatype SloadStep = SloadStep(threshold: U64, count: U64)

  const DEFAULT_OPS: seq<OpcodeStat> := seq(OPCODE_COUNT, _ => OpcodeStat(0, 0, 0))
  const DEFAULT_SLOADS: seq<SloadStep> :=
    seq(STEP_LEN, i requires 0 <= i < STEP_LEN => SloadStep(SLOAD_OPCODE_TIME_STEP[i], 0))

  // ---------------------------------------------------------------------------------------
  // Specification of the opcode record on values

  predicate StatsFit(a: OpcodeStat, b: OpcodeStat) {
    a.count + b.count <= U64_MAX && a.time + b.time <= U64_MAX && I128_MIN <= a.gas + b.gas <= I128_MAX
  }

  function AddStats(a: OpcodeStat, b: OpcodeStat): OpcodeStat
    requires StatsFit(a, b)
  {
    OpcodeStat(a.count + b.count, a.time + b.time, a.gas + b.gas)
  }

  predicate OpsFit(a: seq<OpcodeStat>, b: seq<OpcodeStat>) {
    |a| == |b| && forall i :: 0 <= i < |a| ==> StatsFit(a[i], b[i])
  }

  /** The pointwise sum of two opcode tables. */
  function MergedOps(a: seq<OpcodeStat>, b: seq<OpcodeStat>): seq<OpcodeStat>
    requires OpsFit(a, b)
  {
    seq(|a|, i requires 0 <= i < |a| => AddStats(a[i], b[i]))
  }

  predicate SloadsFit(a: seq<SloadStep>, b: seq<SloadStep>) {
    |a| == |b| && forall i :: 0 <= i < |a| ==> a[i].count + b[i].count <= U64_MAX
  }

  /** The pointwise sum of two SLOAD ladders: counters add up, the first ladder's rungs stay. */
  function MergedSloads(a: seq<SloadStep>, b: seq<SloadStep>): seq<SloadStep>
    requires SloadsFit(a, b)
  {
    seq(|a|, i requires 0 <= i < |a| => SloadStep(a[i].threshold, a[i].count + b[i].count))
  }

  /** The first rung at or after `k` whose threshold exceeds `t`. */
  function FirstStepFrom(t: U64, k: nat): (r: Option<nat>)
    requires k <= STEP_LEN
    ensures r.Some? ==> k <= r.value < STEP_LEN && t < SLOAD_OPCODE_TIME_STEP[r.value]
    ensures r.Some? ==> forall j :: k <= j < r.value ==> SLOAD_OPCODE_TIME_STEP[j] <= t
    ensures r.None? ==> forall j :: k <= j < STEP_LEN ==> SLOAD_OPCODE_TIME_STEP[j] <= t
    decreases STEP_LEN - k
  {
    if k == STEP_LEN then None
    else if t < SLOAD_OPCODE_TIME_STEP[k] then Some(k)
    else FirstStepFrom(t, k + 1)
  }

  /** The rung a SLOAD duration `t` is counted in; there is none exactly when `t` is `u64::MAX`. */
  function FirstStep(t: U64): (r: Option<nat>)
    ensures r.Some? ==> r.value < STEP_LEN && t < SLOAD_OPCODE_TIME_STEP[r.value]
    ensures r.Some? ==> forall j :: 0 <= j < r.value ==> SLOAD_OPCODE_TIME_STEP[j] <= t
    ensures r.None? <==> t == U64_MAX
  {
    FirstStepFrom(t, 0)
  }

  predicate SloadRoom(s: seq<SloadStep>, t: U64) {
    |s| == STEP_LEN && (FirstStep(t).Some? ==> s[FirstStep(t).value].count < U64_MAX)
  }

  /** The ladder after one SLOAD of duration `t` is counted. */
  function SloadAdded(s: seq<SloadStep>, t: U64): seq<SloadStep>
    requires SloadRoom(s, t)
  {
    match FirstStep(t)
    case None => s
    case Some(k) => s[k := s[k].(count := s[k].count + 1)]
  }

  /** The number of executions recorded over all opcodes of a table. */
  function TotalCount(s: seq<OpcodeStat>): nat {
    if s == [] then 0 else s[0].count + TotalCount(s[1..])
  }

  /** The time recorded over all opcodes of a table. */
  function TimeSum(s: seq<OpcodeStat>): nat {
    if s == [] then 0 else s[0].time + TimeSum(s[1..])
  }

  predicate CanCount(st: OpcodeStat, elapsed: nat) {
    st.count < U64_MAX && st.time + elapsed <= U64_MAX
  }

  /** An opcode's entry after one more execution of it, which took `elapsed`. */
  function Counted(st: OpcodeStat, elapsed: nat): OpcodeStat
    requires CanCount(st, elapsed)
  {
    st.(count := st.count + 1, time := st.time + elapsed)
  }

  /** The number of SLOADs recorded over all rungs of a ladder. */
  function SloadTotal(s: seq<SloadStep>): nat {
    if s == [] then 0 else s[0].count + SloadTotal(s[1..])
  }

  /** Merging two opcode tables adds up their execution counts. */
  lemma {:induction false} TotalCountMerged(a: seq<OpcodeStat>, b: seq<OpcodeStat>)
    requires OpsFit(a, b)
    ensures TotalCount(MergedOps(a, b)) == TotalCount(a) + TotalCount(b)
  {
    if a != [] {
      assert MergedOps(a, b)[1..] == MergedOps(a[1..], b[1..]);
      TotalCountMerged(a[1..], b[1..]);
    }
  }

  /** Replacing one entry of a table changes the total count by the difference of the counts. */
  lemma {:induction false} TotalCountUpdate(s: seq<OpcodeStat>, i: nat, v: OpcodeStat)
    requires i < |s|
    ensures TotalCount(s[i := v]) + s[i].count == TotalCount(s) + v.count
  {
    if i > 0 {
      assert s[i := v][1..] == s[1..][i - 1 := v];
      TotalCountUpdate(s[1..], i - 1, v);
    } else {
      assert s[i := v][1..] == s[1..];
    }
  }

  /** Replacing one entry of a table changes the time sum by the difference of the times. */
  lemma {:induction false} TimeSumUpdate(s: seq<OpcodeStat>, i: nat, v: OpcodeStat)
    requires i < |s|
    ensures TimeSum(s[i := v]) + s[i].time == TimeSum(s) + v.time
  {
    if i > 0 {
      assert s[i := v][1..] == s[1..][i - 1 := v];
      TimeSumUpdate(s[1..], i - 1, v);
    } else {
      assert s[i := v][1..] == s[1..];
    }
  }

  /** The default table has recorded nothing. */
  lemma {:induction false} EmptyTotals(n: nat)
    ensures TotalCount(seq(n, _ => OpcodeStat(0, 0, 0))) == 0
    ensures TimeSum(seq(n, _ => OpcodeStat(0, 0, 0))) == 0
  {
    if n > 0 {
      assert seq(n, _ => OpcodeStat(0, 0, 0))[1..] == seq(n - 1, _ => OpcodeStat(0, 0, 0));
      EmptyTotals(n - 1);
    }
  }

  /**
   * Counting one execution of an opcode raises the table's execution total by one and its
   * time sum by the time the execution took; the other opcodes' entries stay as they were.
   */
  lemma CountedTotals(s: seq<OpcodeStat>, i: nat, elapsed: nat)
    requires i < |s| && CanCount(s[i], elapsed)
    ensures TotalCount(s[i := Counted(s[i], elapsed)]) == TotalCount(s) + 1
    ensures TimeSum(s[i := Counted(s[i], elapsed)]) == TimeSum(s) + elapsed
  {
    TotalCountUpdate(s, i, Counted(s[i], elapsed));
    TimeSumUpdate(s, i, Counted(s[i], elapsed));
  }

  /** Changing only the gas of an entry changes neither the execution total nor the time sum. */
  lemma GasOnlyTotals(s: seq<OpcodeStat>, i: nat, gas: I128)
    requires i < |s|
    ensures TotalCount(s[i := s[i].(gas := gas)]) == TotalCount(s)
    ensures TimeSum(s[i := s[i].(gas := gas)]) == TimeSum(s)
  {
    TotalCountUpdate(s, i, s[i].(gas := gas));
    TimeSumUpdate(s, i, s[i].(gas := gas));
  }

  /** Replacing one rung of a ladder changes the SLOAD total by the difference of the counts. */
  lemma {:induction false} SloadTotalUpdate(s: seq<SloadStep>, i: nat, v: SloadStep)
    requires i < |s|
    ensures SloadTotal(s[i := v]) + s[i].count == SloadTotal(s) + v.count
  {
    if i > 0 {
      assert s[i := v][1..] == s[1..][i - 1 := v];
      SloadTotalUpdate(s[1..], i - 1, v);
    } else {
      assert s[i := v][1..] == s[1..];
    }
  }

  /**
   * Counting one SLOAD duration: the rungs never change, and the ladder's total grows by one
   * unless the duration is `u64::MAX`, for which no rung is counted.
   */
  lemma SloadAddedCounts(s: seq<SloadStep>, t: U64)
    requires SloadRoom(s, t)
    ensures |SloadAdded(s, t)| == STEP_LEN
    ensures forall i :: 0 <= i < STEP_LEN ==> SloadAdded(s, t)[i].threshold == s[i].threshold
    ensures SloadTotal(SloadAdded(s, t)) == SloadTotal(s) + (if t < U64_MAX then 1 else 0)
  {
    match FirstStep(t)
    case None =>
    case Some(k) => SloadTotalUpdate(s, k, s[k].(count := s[k].count + 1));
  }

  /**
   * The first merge swaps arrays instead of adding them.  This gives the same table and ladder
   * as the pointwise sum, provided the receiving record still holds the default arrays and the
   * incoming ladder has the default rungs.
   */
  lemma FirstMergeIsSum(ops: seq<OpcodeStat>, sloads: seq<SloadStep>)
    requires |ops| == OPCODE_COUNT && |sloads| == STEP_LEN
    requires forall i :: 0 <= i < STEP_LEN ==> sloads[i].threshold == SLOAD_OPCODE_TIME_STEP[i]
    ensures OpsFit(DEFAULT_OPS, ops) && MergedOps(DEFAULT_OPS, ops) == ops
    ensures SloadsFit(DEFAULT_SLOADS, sloads) && MergedSloads(DEFAULT_SLOADS, sloads) == sloads
  {
    assert MergedOps(DEFAULT_OPS, ops) == ops by {
      forall i | 0 <= i < OPCODE_COUNT ensures MergedOps(DEFAULT_OPS, ops)[i] == ops[i] {
        assert DEFAULT_OPS[i] == OpcodeStat(0, 0, 0);
      }
    }
    assert MergedSloads(DEFAULT_SLOADS, sloads) == sloads by {
      forall i | 0 <= i < STEP_LEN ensures MergedSloads(DEFAULT_SLOADS, sloads)[i] == sloads[i] {
        assert DEFAULT_SLOADS[i] == SloadStep(SLOAD_OPCODE_TIME_STEP[i], 0);
      }
    }
  }

  // ---------------------------------------------------------------------------------------
  // OpcodeRecord

  /** The first loop of `OpcodeRecord::update`: add every entry of `src` into `dst`. */
  method MergeOpsInto(dst: array<OpcodeStat>, src: array<OpcodeStat>)
    requires dst != src && OpsFit(dst[..], src[..])
    modifies dst
    ensures dst[..] == MergedOps(old(dst[..]), src[..])
  {
    ghost var a := dst[..];
    for i := 0 to dst.Length
      invariant forall j :: 0 <= j < i ==> dst[j] == AddStats(a[j], src[j])
      invariant forall j :: i <= j < dst.Length ==> dst[j] == a[j]
    {
      var mine, theirs := dst[i], src[i];
      dst[i] := OpcodeStat(mine.count + theirs.count, mine.time + theirs.time, mine.gas + theirs.gas);
    }
    assert dst[..] == MergedOps(a, src[..]);
  }

  /** The second loop of `OpcodeRecord::update`: add the counters of `src` into those of `dst`. */
  method MergeSloadsInto(dst: array<SloadStep>, src: array<SloadStep>)
    requires dst != src && SloadsFit(dst[..], src[..])
    modifies dst
    ensures dst[..] == MergedSloads(old(dst[..]), src[..])
  {
    ghost var a := dst[..];
    for index := 0 to dst.Length
      invariant forall j :: 0 <= j < index ==> dst[j] == SloadStep(a[j].threshold, a[j].count + src[j].count)
      invariant forall j :: index <= j < dst.Length ==> dst[j] == a[j]
    {
      dst[index] := dst[index].(count := dst[index].count + src[index].count);
    }
    assert dst[..] == MergedSloads(a, src[..]);
  }

  /** The performance record of opcode executions. */
  class OpcodeRecord {
    /** Indexed by opcode: (counter, time, gas). */
    var opcodeRecord: array<OpcodeStat>
    /** The SLOAD duration ladder. */
    var sloadOpcodeRecord: array<SloadStep>
    /** The total time of all opcodes. */
    var totalTime: U64
    var isUpdated: bool

    ghost predicate Valid()
      reads this
    {
      opcodeRecord.Length == OPCODE_COUNT && sloadOpcodeRecord.Length == STEP_LEN
    }

    function Ops(): seq<OpcodeStat>
      reads this, opcodeRecord
    {
      opcodeRecord[..]
    }

    function Sloads(): seq<SloadStep>
      reads this, sloadOpcodeRecord
    {
      sloadOpcodeRecord[..]
    }

    /** `OpcodeRecord::default()`. */
    constructor ()
      ensures Valid() && fresh(opcodeRecord) && fresh(sloadOpcodeRecord)
      ensures Ops() == DEFAULT_OPS && Sloads() == DEFAULT_SLOADS
      ensures totalTime == 0 && !isUpdated
    {
      opcodeRecord := new OpcodeStat[OPCODE_COUNT](_ => OpcodeStat(0, 0, 0));
      sloadOpcodeRecord := new SloadStep[STEP_LEN](i requires 0 <= i < STEP_LEN => SloadStep(SLOAD_OPCODE_TIME_STEP[i], 0));
      totalTime := 0;
      isUpdated := false;
    }

    /** `not_empty`: whether anything has been recorded or merged in. */
    function NotEmpty(): (b: bool)
      reads this
      ensures b <==> isUpdated
    {
      isUpdated
    }

    /**
     * `update`: merge `other` into this record.  Nothing happens when `other` holds nothing;
     * the first merge into an empty record swaps the arrays of the two records; later merges
     * add the tables pointwise.
     */
    method Update(other: OpcodeRecord)
      requires Valid() && other.Valid() && other != this
      requires opcodeRecord != other.opcodeRecord && sloadOpcodeRecord != other.sloadOpcodeRecord
      requires other.NotEmpty() ==> totalTime + other.totalTime <= U64_MAX
      requires other.NotEmpty() && NotEmpty() ==> OpsFit(Ops(), other.Ops()) && SloadsFit(Sloads(), other.Sloads())
      modifies this, other, opcodeRecord, sloadOpcodeRecord
      ensures Valid() && other.Valid()
      ensures !old(other.NotEmpty()) ==> unchanged(this, other, old(opcodeRecord), old(sloadOpcodeRecord))
      ensures old(other.NotEmpty()) ==> totalTime == old(totalTime) + old(other.totalTime) && NotEmpty()
      ensures old(other.NotEmpty()) ==> other.totalTime == old(other.totalTime) && other.NotEmpty()
      ensures old(other.NotEmpty()) && !old(NotEmpty()) ==>
        && opcodeRecord == old(other.opcodeRecord) && other.opcodeRecord == old(opcodeRecord)
        && sloadOpcodeRecord == old(other.sloadOpcodeRecord) && other.sloadOpcodeRecord == old(sloadOpcodeRecord)
        && Ops() == old(other.Ops()) && other.Ops() == old(Ops())
        && Sloads() == old(other.Sloads()) && other.Sloads() == old(Sloads())
      ensures old(other.NotEmpty()) && old(NotEmpty()) ==>
        && opcodeRecord == old(opcodeRecord) && sloadOpcodeRecord == old(sloadOpcodeRecord)
        && other.opcodeRecord == old(other.opcodeRecord) && other.sloadOpcodeRecord == old(other.sloadOpcodeRecord)
        && Ops() == MergedOps(old(Ops()), old(other.Ops())) && other.Ops() == old(other.Ops())
        && Sloads() == MergedSloads(old(Sloads()), old(other.Sloads())) && other.Sloads() == old(other.Sloads())
    {
      if !other.isUpdated {
        return;
      }

      totalTime := totalTime + other.totalTime;

      if !isUpdated {
        opcodeRecord, other.opcodeRecord := other.opcodeRecord, opcodeRecord;
        sloadOpcodeRecord, other.sloadOpcodeRecord := other.sloadOpcodeRecord, sloadOpcodeRecord;
        isUpdated := true;
        return;
      }

      MergeOpsInto(opcodeRecord, other.opcodeRecord);
      MergeSloadsInto(sloadOpcodeRecord, other.sloadOpcodeRecord);
    }

    /**
     * `add_sload_opcode_record`: count one SLOAD of duration `opTime` in the first rung of
     * the ladder constant whose threshold exceeds it.
     */
    method AddSloadOpcodeRecord(opTime: U64)
      requires Valid() && SloadRoom(Sloads(), opTime)
      modifies sloadOpcodeRecord
      ensures Sloads() == SloadAdded(old(Sloads()), opTime)
    {
      for index := 0 to STEP_LEN
        invariant forall j :: 0 <= j < index ==> SLOAD_OPCODE_TIME_STEP[j] <= opTime
        invariant Sloads() == old(Sloads())
      {
        if opTime < SLOAD_OPCODE_TIME_STEP[index] {
          assert FirstStep(opTime) == Some(index);
          sloadOpcodeRecord[index] := sloadOpcodeRecord[index].(count := sloadOpcodeRecord[index].count + 1);
          return;
        }
      }
      assert FirstStep(opTime).None?;
    }
  }

  // ---------------------------------------------------------------------------------------
  // CacheDb hits, misses and penalties

  /** The five per-function counters of CacheHits, CacheMisses and of the scalar part of CacheMissesPenalty. */
  datatype Tally = Tally(blockHash: U64, basic: U64, storage: U64, codeByHash: U64, loadAccount: U64)
  {
    predicate FitsWith(o: Tally) {
      && blockHash + o.blockHash <= U64_MAX && basic + o.basic <= U64_MAX && storage + o.storage <= U64_MAX
      && codeByHash + o.codeByHash <= U64_MAX && loadAccount + o.loadAccount <= U64_MAX
    }

    /** The field-wise sum. */
    function Plus(o: Tally): Tally
      requires FitsWith(o)
    {
      Tally(blockHash + o.blockHash, basic + o.basic, storage + o.storage, codeByHash + o.codeByHash, loadAccount + o.loadAccount)
    }

    /** The sum of the five fields. */
    function Sum(): nat {
      blockHash + basic + storage + codeByHash + loadAccount
    }
  }

  const ZERO_TALLY: Tally := Tally(0, 0, 0, 0, 0)

  const US_PENALTY_STEP_SIZE: nat := 200
  const NS_PENALTY_STEP_SIZE: nat := 10
  /** Below this many nanoseconds a miss penalty is also counted at the 100-nanosecond level. */
  const NS_LEVEL_BOUND: nat := 1000

  predicate PointwiseFit(a: seq<U64>, b: seq<U64>) {
    |a| == |b| && forall i :: 0 <= i < |a| ==> a[i] + b[i] <= U64_MAX
  }

  function PointwiseSum(a: seq<U64>, b: seq<U64>): seq<U64>
    requires PointwiseFit(a, b)
  {
    seq(|a|, i requires 0 <= i < |a| => a[i] + b[i])
  }

  /** `s` with the counter at `i` incremented. */
  function Bump(s: seq<U64>, i: nat): seq<U64>
    requires i < |s| && s[i] < U64_MAX
  {
    s[i := s[i] + 1]
  }

  /** Bumping either operand of a pointwise sum bumps the sum. */
  lemma PointwiseBump(a: seq<U64>, b: seq<U64>, i: nat)
    requires PointwiseFit(a, b) && i < |a| && a[i] + b[i] < U64_MAX
    ensures PointwiseFit(Bump(a, i), b) && PointwiseFit(a, Bump(b, i))
    ensures PointwiseSum(Bump(a, i), b) == Bump(PointwiseSum(a, b), i) == PointwiseSum(a, Bump(b, i))
  {
    assert PointwiseSum(Bump(a, i), b) == Bump(PointwiseSum(a, b), i);
    assert PointwiseSum(a, Bump(b, i)) == Bump(PointwiseSum(a, b), i);
  }

  /** The loop the `update` methods run over each distribution: add `src` into `dst` element by element. */
  method AddPointwise(dst: array<U64>, src: array<U64>)
    requires dst != src && PointwiseFit(dst[..], src[..])
    modifies dst
    ensures dst[..] == PointwiseSum(old(dst[..]), src[..])
  {
    ghost var a := dst[..];
    for index := 0 to dst.Length
      invariant forall j :: 0 <= j < index ==> dst[j] == a[j] + src[j]
      invariant forall j :: index <= j < dst.Length ==> dst[j] == a[j]
    {
      dst[index] := dst[index] + src[index];
    }
    assert dst[..] == PointwiseSum(a, src[..]);
  }

  /** The sum of all counters of a table or distribution. */
  function SeqSum(s: seq<U64>): nat {
    if s == [] then 0 else s[0] + SeqSum(s[1..])
  }

  /** Incrementing one counter raises the sum of the table by one. */
  lemma {:induction false} SeqSumBump(s: seq<U64>, i: nat)
    requires i < |s| && s[i] < U64_MAX
    ensures SeqSum(Bump(s, i)) == SeqSum(s) + 1
  {
    if i == 0 {
      assert Bump(s, i)[1..] == s[1..];
    } else {
      assert Bump(s, i)[1..] == Bump(s[1..], i - 1);
      SeqSumBump(s[1..], i - 1);
    }
  }

  /** The sum of a pointwise sum is the sum of the two sums. */
  lemma {:induction false} SeqSumPointwise(a: seq<U64>, b: seq<U64>)
    requires PointwiseFit(a, b)
    ensures SeqSum(PointwiseSum(a, b)) == SeqSum(a) + SeqSum(b)
  {
    if a != [] {
      assert PointwiseSum(a, b)[1..] == PointwiseSum(a[1..], b[1..]);
      SeqSumPointwise(a[1..], b[1..]);
    }
  }

  /** The microsecond bucket of a duration in nanoseconds: its whole microseconds, capped at the last bucket. */
  function UsIndex(timeInNs: nat): (i: nat)
    ensures i < US_PENALTY_STEP_SIZE
    ensures i < US_PENALTY_STEP_SIZE - 1 ==> i * 1000 <= timeInNs < (i + 1) * 1000
    ensures i == US_PENALTY_STEP_SIZE - 1 ==> (US_PENALTY_STEP_SIZE - 1) * 1000 <= timeInNs
  {
    var index := timeInNs / 1000;
    if index > US_PENALTY_STEP_SIZE - 1 then US_PENALTY_STEP_SIZE - 1 else index
  }

  /** The number of cache hits when accessing CacheDb, per function. */
  class CacheHits {
    var blockHash: U64
    var basic: U64
    var storage: U64
    var codeByHash: U64
    var loadAccount: U64

    function Value(): Tally
      reads this
    {
      Tally(blockHash, basic, storage, codeByHash, loadAccount)
    }

    constructor ()
      ensures Value() == ZERO_TALLY
    {
      blockHash, basic, storage, codeByHash, loadAccount := 0, 0, 0, 0, 0;
    }

    /** `update`: field-wise sum. */
    method Update(other: CacheHits)
      requires Value().FitsWith(other.Value())
      modifies this
      ensures Value() == old(Value()).Plus(old(other.Value()))
    {
      blockHash := blockHash + other.blockHash;
      basic := basic + other.basic;
      storage := storage + other.storage;
      codeByHash := codeByHash + other.codeByHash;
      loadAccount := loadAccount + other.loadAccount;
    }
  }

  /** The number of cache misses when accessing CacheDb, per function. */
  class CacheMisses {
    var blockHash: U64
    var basic: U64
    var storage: U64
    var codeByHash: U64
    var loadAccount: U64

    function Value(): Tally
      reads this
    {
      Tally(blockHash, basic, storage, codeByHash, loadAccount)
    }

    constructor ()
      ensures Value() == ZERO_TALLY
    {
      blockHash, basic, storage, codeByHash, loadAccount := 0, 0, 0, 0, 0;
    }

    /** `update`: field-wise sum. */
    method Update(other: CacheMisses)
      requires Value().FitsWith(other.Value())
      modifies this
      ensures Value() == old(Value()).Plus(old(other.Value()))
    {
      blockHash := blockHash + other.blockHash;
      basic := basic + other.basic;
      storage := storage + other.storage;
      codeByHash := codeByHash + other.codeByHash;
      loadAccount := loadAccount + other.loadAccount;
    }
  }

  /** The additional cost incurred when CacheDb is not hit, per function, and its distribution. */
  class CacheMissesPenalty {
    var blockHash: U64
    var basic: U64
    var storage: U64
    var codeByHash: U64
    var loadAccount: U64
    const usPercentile: array<U64>
    const nsPercentile: array<U64>

    ghost predicate Valid() {
      usPercentile.Length == US_PENALTY_STEP_SIZE && nsPercentile.Length == NS_PENALTY_STEP_SIZE
    }

    function Value(): Tally
      reads this
    {
      Tally(blockHash, basic, storage, codeByHash, loadAccount)
    }

    function Us(): seq<U64>
      reads usPercentile
    {
      usPercentile[..]
    }

    function Ns(): seq<U64>
      reads nsPercentile
    {
      nsPercentile[..]
    }

    /** `CacheMissesPenalty::default()`. */
    constructor ()
      ensures Valid() && fresh(usPercentile) && fresh(nsPercentile)
      ensures Value() == ZERO_TALLY
      ensures Us() == seq(US_PENALTY_STEP_SIZE, _ => 0) && Ns() == seq(NS_PENALTY_STEP_SIZE, _ => 0)
    {
      blockHash, basic, storage, codeByHash, loadAccount := 0, 0, 0, 0, 0;
      usPercentile := new U64[US_PENALTY_STEP_SIZE](_ => 0);
      nsPercentile := new U64[NS_PENALTY_STEP_SIZE](_ => 0);
    }

    /** `update`: field-wise sum of the five penalties, pointwise sum of both distributions. */
    method Update(other: CacheMissesPenalty)
      requires Valid() && other.Valid() && other != this
      requires usPercentile != other.usPercentile && nsPercentile != other.nsPercentile
      requires Value().FitsWith(other.Value())
      requires PointwiseFit(Us(), other.Us()) && PointwiseFit(Ns(), other.Ns())
      modifies this, usPercentile, nsPercentile
      ensures Value() == old(Value()).Plus(old(other.Value()))
      ensures Us() == PointwiseSum(old(Us()), old(other.Us()))
      ensures Ns() == PointwiseSum(old(Ns()), old(other.Ns()))
    {
      blockHash := blockHash + other.blockHash;
      basic := basic + other.basic;
      storage := storage + other.storage;
      codeByHash := codeByHash + other.codeByHash;
      loadAccount := loadAccount + other.loadAccount;

      AddPointwise(usPercentile, other.usPercentile);
      AddPointwise(nsPercentile, other.nsPercentile);
    }

    /**
     * `percentile`, on a whole number of nanoseconds: a penalty of a microsecond or more is
     * counted in its microsecond bucket (the last bucket takes everything beyond); a shorter
     * one is counted in microsecond bucket 0 and in its 100-nanosecond bucket.
     */
    method Percentile(timeInNs: nat)
      requires Valid()
      requires Us()[UsIndex(timeInNs)] < U64_MAX
      requires timeInNs < NS_LEVEL_BOUND ==> Ns()[timeInNs / 100] < U64_MAX
      modifies usPercentile, nsPercentile
      ensures Us() == Bump(old(Us()), UsIndex(timeInNs))
      ensures Ns() == if timeInNs < NS_LEVEL_BOUND then Bump(old(Ns()), timeInNs / 100) else old(Ns())
    {
      if timeInNs >= 1000 {
        var index := timeInNs / 1000;
        if index > US_PENALTY_STEP_SIZE - 1 {
          index := US_PENALTY_STEP_SIZE - 1;
        }
        usPercentile[index] := usPercentile[index] + 1;
      } else {
        usPercentile[0] := usPercentile[0] + 1;
        var index := timeInNs / 100;
        nsPercentile[index] := nsPercentile[index] + 1;
      }
    }
  }

  /** The whole CacheDb record as a value. */
  datatype CacheDbView = CacheDbView(hits: Tally, misses: Tally, penalty: Tally, us: seq<U64>, ns: seq<U64>)

  const DEFAULT_CACHEDB: CacheDbView :=
    CacheDbView(ZERO_TALLY, ZERO_TALLY, ZERO_TALLY, seq(US_PENALTY_STEP_SIZE, _ => 0), seq(NS_PENALTY_STEP_SIZE, _ => 0))

  predicate ViewsFit(a: CacheDbView, b: CacheDbView) {
    a.hits.FitsWith(b.hits) && a.misses.FitsWith(b.misses) && a.penalty.FitsWith(b.penalty)
    && PointwiseFit(a.us, b.us) && PointwiseFit(a.ns, b.ns)
  }

  /** The CacheDb record obtained by merging `b` into `a`. */
  function MergedView(a: CacheDbView, b: CacheDbView): CacheDbView
    requires ViewsFit(a, b)
  {
    CacheDbView(a.hits.Plus(b.hits), a.misses.Plus(b.misses), a.penalty.Plus(b.penalty),
                PointwiseSum(a.us, b.us), PointwiseSum(a.ns, b.ns))
  }

  /** The CacheDb hit record collected during execution. */
  class CacheDbRecord {
    const hits: CacheHits
    const misses: CacheMisses
    const penalty: CacheMissesPenalty

    ghost function Repr(): set<object> {
      {this, hits, misses, penalty, penalty.usPercentile, penalty.nsPercentile}
    }

    ghost predicate Valid() {
      penalty.Valid()
    }

    function Value(): CacheDbView
      reads hits, misses, penalty, penalty.usPercentile, penalty.nsPercentile
    {
      CacheDbView(hits.Value(), misses.Value(), penalty.Value(), penalty.Us(), penalty.Ns())
    }

    /** `CacheDbRecord::default()`. */
    constructor ()
      ensures Valid() && fresh(Repr() - {this})
      ensures Value() == DEFAULT_CACHEDB
    {
      hits := new CacheHits();
      misses := new CacheMisses();
      penalty := new CacheMissesPenalty();
    }

    /** `update`: exactly the three component updates. */
    method Update(other: CacheDbRecord)
      requires Valid() && other.Valid() && Repr() !! other.Repr()
      requires ViewsFit(Value(), other.Value())
      modifies hits, misses, penalty, penalty.usPercentile, penalty.nsPercentile
      ensures Value() == MergedView(old(Value()), old(other.Value()))
    {
      hits.Update(other.hits);
      misses.Update(other.misses);
      penalty.Update(other.penalty);
    }

    /** `total_in_basic`. */
    function TotalInBasic(): (r: U64)
      reads hits, misses
      requires hits.basic + misses.basic <= U64_MAX
      ensures r == hits.Value().basic + misses.Value().basic
    {
      hits.basic + misses.basic
    }

    /** `total_in_code_by_hash`. */
    function TotalInCodeByHash(): (r: U64)
      reads hits, misses
      requires hits.codeByHash + misses.codeByHash <= U64_MAX
      ensures r == hits.Value().codeByHash + misses.Value().codeByHash
    {
      hits.codeByHash + misses.codeByHash
    }

    /** `total_in_storage`. */
    function TotalInStorage(): (r: U64)
      reads hits, misses
      requires hits.storage + misses.storage <= U64_MAX
      ensures r == hits.Value().storage + misses.Value().storage
    {
      hits.storage + misses.storage
    }

    /** `total_in_block_hash`. */
    function TotalInBlockHash(): (r: U64)
      reads hits, misses
      requires hits.blockHash + misses.blockHash <= U64_MAX
      ensures r == hits.Value().blockHash + misses.Value().blockHash
    {
      hits.blockHash + misses.blockHash
    }

    /** `total_in_load_account`. */
    function TotalInLoadAccount(): (r: U64)
      reads hits, misses
      requires hits.loadAccount + misses.loadAccount <= U64_MAX
      ensures r == hits.Value().loadAccount + misses.Value().loadAccount
    {
      hits.loadAccount + misses.loadAccount
    }

    /** `total_hits`: the hits of all five functions. */
    method TotalHits() returns (total: U64)
      requires hits.Value().Sum() <= U64_MAX
      ensures total == hits.Value().Sum()
    {
      total := hits.basic + hits.codeByHash;
      total := total + hits.storage;
      total := total + hits.blockHash;
      total := total + hits.loadAccount;
    }

    /** `total_miss`: the misses of all five functions. */
    method TotalMiss() returns (total: U64)
      requires misses.Value().Sum() <= U64_MAX
      ensures total == misses.Value().Sum()
    {
      total := misses.basic + misses.codeByHash;
      total := total + misses.storage;
      total := total + misses.blockHash;
      total := total + misses.loadAccount;
    }

    /** `total_penalty_times`: the penalties of all five functions. */
    method TotalPenaltyTimes() returns (total: U64)
      requires penalty.Value().Sum() <= U64_MAX
      ensures total == penalty.Value().Sum()
    {
      total := penalty.basic + penalty.codeByHash;
      total := total + penalty.storage;
      total := total + penalty.blockHash;
      total := total + penalty.loadAccount;
    }
  }
}
