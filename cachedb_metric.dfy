/**
 * The CacheDb recorder of crates/utils/src/cachedb_metric.rs: one recorder (in Rust a
 * thread-local `CacheDbRecord`) that counts cache hits and misses per function, plus the
 * two guards whose drop records a hit or a timed miss.
 */
module CacheDbMetric {
  import opened Types

  /** In which function the cache is accessed. */
  datatype FunctionType = Basic | CodeByHash | Storage | BlockHash | LoadAccount

  /** The counter of `t` that belongs to function `f`. */
  function Slot(t: Tally, f: FunctionType): U64 {
    match f
    case Basic => t.basic
    case CodeByHash => t.codeByHash
    case Storage => t.storage
    case BlockHash => t.blockHash
    case LoadAccount => t.loadAccount
  }

  /** `t` with `value` added to the counter of `f`. */
  function AddTo(t: Tally, f: FunctionType, value: U64): (r: Tally)
    requires Slot(t, f) + value <= U64_MAX
    ensures Slot(r, f) == Slot(t, f) + value
    ensures forall g :: g != f ==> Slot(r, g) == Slot(t, g)
    ensures r.Sum() == t.Sum() + value
  {
    match f
    case Basic => t.(basic := t.basic + value)
    case CodeByHash => t.(codeByHash := t.codeByHash + value)
    case Storage => t.(storage := t.storage + value)
    case BlockHash => t.(blockHash := t.blockHash + value)
    case LoadAccount => t.(loadAccount := t.loadAccount + value)
  }

  predicate WellSized(v: CacheDbView) {
    |v.us| == US_PENALTY_STEP_SIZE && |v.ns| == NS_PENALTY_STEP_SIZE
  }

  predicate CanHit(v: CacheDbView, f: FunctionType) {
    Slot(v.hits, f) < U64_MAX
  }

  /** The record after one hit in `f`. */
  function HitView(v: CacheDbView, f: FunctionType): CacheDbView
    requires CanHit(v, f)
  {
    v.(hits := AddTo(v.hits, f, 1))
  }

  predicate CanMiss(v: CacheDbView, f: FunctionType, cycles: U64, timeInNs: nat) {
    && WellSized(v)
    && Slot(v.misses, f) < U64_MAX
    && Slot(v.penalty, f) + cycles <= U64_MAX
    && v.us[UsIndex(timeInNs)] < U64_MAX
    && (timeInNs < NS_LEVEL_BOUND ==> v.ns[timeInNs / 100] < U64_MAX)
  }

  /** The record after one miss in `f` that cost `cycles` cycles, that is `timeInNs` nanoseconds. */
  function MissView(v: CacheDbView, f: FunctionType, cycles: U64, timeInNs: nat): CacheDbView
    requires CanMiss(v, f, cycles, timeInNs)
  {
    CacheDbView(v.hits, AddTo(v.misses, f, 1), AddTo(v.penalty, f, cycles),
                Bump(v.us, UsIndex(timeInNs)),
                if timeInNs < NS_LEVEL_BOUND then Bump(v.ns, timeInNs / 100) else v.ns)
  }

  /**
   * The bookkeeping the recorder keeps: every miss is counted exactly once in the
   * microsecond distribution, and the 100-nanosecond level holds no more than that.
   */
  predicate Accounted(v: CacheDbView) {
    SeqSum(v.us) == v.misses.Sum() && SeqSum(v.ns) <= SeqSum(v.us)
  }

  /** The accesses of function `f` recorded in `v`: its hits and its misses. */
  function AccessCount(v: CacheDbView, f: FunctionType): nat {
    Slot(v.hits, f) + Slot(v.misses, f)
  }

  /**
   * `total_in_basic` … `total_in_load_account` of `rec`, chosen by `f`: each getter gives
   * the number of accesses of its function.
   */
  function TotalIn(rec: CacheDbRecord, f: FunctionType): (r: U64)
    reads rec.hits, rec.misses, rec.penalty, rec.penalty.usPercentile, rec.penalty.nsPercentile
    requires AccessCount(rec.Value(), f) <= U64_MAX
    ensures r == AccessCount(rec.Value(), f)
  {
    match f
    case Basic => rec.TotalInBasic()
    case CodeByHash => rec.TotalInCodeByHash()
    case Storage => rec.TotalInStorage()
    case BlockHash => rec.TotalInBlockHash()
    case LoadAccount => rec.TotalInLoadAccount()
  }

  /** The accesses of the five functions together are all the hits and all the misses. */
  lemma AccessCountsAddUp(v: CacheDbView)
    ensures AccessCount(v, Basic) + AccessCount(v, CodeByHash) + AccessCount(v, Storage)
              + AccessCount(v, BlockHash) + AccessCount(v, LoadAccount)
            == v.hits.Sum() + v.misses.Sum()
  {
  }

  /** A hit is one more access of its function and of no other. */
  lemma HitIsOneAccess(v: CacheDbView, f: FunctionType)
    requires CanHit(v, f)
    ensures AccessCount(HitView(v, f), f) == AccessCount(v, f) + 1
    ensures forall g :: g != f ==> AccessCount(HitView(v, f), g) == AccessCount(v, g)
  {
  }

  /** A miss is one more access of its function and of no other. */
  lemma MissIsOneAccess(v: CacheDbView, f: FunctionType, cycles: U64, timeInNs: nat)
    requires CanMiss(v, f, cycles, timeInNs)
    ensures AccessCount(MissView(v, f, cycles, timeInNs), f) == AccessCount(v, f) + 1
    ensures forall g :: g != f ==> AccessCount(MissView(v, f, cycles, timeInNs), g) == AccessCount(v, g)
  {
  }

  /** The default record is accounted for. */
  lemma DefaultAccounted()
    ensures WellSized(DEFAULT_CACHEDB) && Accounted(DEFAULT_CACHEDB)
  {
    ZeroSum(US_PENALTY_STEP_SIZE);
    ZeroSum(NS_PENALTY_STEP_SIZE);
  }

  lemma {:induction false} ZeroSum(n: nat)
    ensures SeqSum(seq(n, _ => 0)) == 0
  {
    if n > 0 {
      assert seq(n, _ => 0)[1..] == seq(n - 1, _ => 0);
      ZeroSum(n - 1);
    }
  }

  /** A hit raises the hit total of its function and the overall hit total by one, and nothing else. */
  lemma HitCountsOnce(v: CacheDbView, f: FunctionType)
    requires CanHit(v, f)
    ensures HitView(v, f).hits.Sum() == v.hits.Sum() + 1
    ensures Slot(HitView(v, f).hits, f) == Slot(v.hits, f) + 1
    ensures forall g :: g != f ==> Slot(HitView(v, f).hits, g) == Slot(v.hits, g)
    ensures HitView(v, f).misses == v.misses && HitView(v, f).penalty == v.penalty
    ensures HitView(v, f).us == v.us && HitView(v, f).ns == v.ns
    ensures Accounted(v) ==> Accounted(HitView(v, f))
  {
  }

  /**
   * A miss raises its function's miss count by one and its penalty by the cycles it
   * cost, leaves the hits alone, and is counted once in the microsecond distribution.
   */
  lemma MissCountsOnce(v: CacheDbView, f: FunctionType, cycles: U64, timeInNs: nat)
    requires CanMiss(v, f, cycles, timeInNs)
    ensures MissView(v, f, cycles, timeInNs).hits == v.hits
    ensures MissView(v, f, cycles, timeInNs).misses.Sum() == v.misses.Sum() + 1
    ensures MissView(v, f, cycles, timeInNs).penalty.Sum() == v.penalty.Sum() + cycles
    ensures SeqSum(MissView(v, f, cycles, timeInNs).us) == SeqSum(v.us) + 1
    ensures SeqSum(MissView(v, f, cycles, timeInNs).ns) == SeqSum(v.ns) + (if timeInNs < NS_LEVEL_BOUND then 1 else 0)
    ensures Accounted(v) ==> Accounted(MissView(v, f, cycles, timeInNs))
  {
    SeqSumBump(v.us, UsIndex(timeInNs));
    if timeInNs < NS_LEVEL_BOUND {
      SeqSumBump(v.ns, timeInNs / 100);
    }
  }

  /** Merging two accounted records (`CacheDbRecord::update`) gives an accounted record. */
  lemma MergeAccounted(a: CacheDbView, b: CacheDbView)
    requires ViewsFit(a, b) && Accounted(a) && Accounted(b)
    ensures Accounted(MergedView(a, b))
  {
    SeqSumPointwise(a.us, b.us);
    SeqSumPointwise(a.ns, b.ns);
  }

  /** The `match` of `miss_record`: one more miss of `f`, and `cycles` more penalty for `f`. */
  method CountMiss(misses: CacheMisses, penalty: CacheMissesPenalty, f: FunctionType, cycles: U64)
    requires Slot(misses.Value(), f) < U64_MAX && Slot(penalty.Value(), f) + cycles <= U64_MAX
    modifies misses, penalty
    ensures misses.Value() == AddTo(old(misses.Value()), f, 1)
    ensures penalty.Value() == AddTo(old(penalty.Value()), f, cycles)
  {
    match f {
      case Basic =>
        misses.basic := misses.basic + 1;
        penalty.basic := penalty.basic + cycles;
      case CodeByHash =>
        misses.codeByHash := misses.codeByHash + 1;
        penalty.codeByHash := penalty.codeByHash + cycles;
      case Storage =>
        misses.storage := misses.storage + 1;
        penalty.storage := penalty.storage + cycles;
      case BlockHash =>
        misses.blockHash := misses.blockHash + 1;
        penalty.blockHash := penalty.blockHash + cycles;
      case LoadAccount =>
        misses.loadAccount := misses.loadAccount + 1;
        penalty.loadAccount := penalty.loadAccount + cycles;
    }
  }

  /** The recorder: a single instance in place of the thread-local `CACHEDB_RECORDER`. */
  class CacheDbRecorder {
    var record: CacheDbRecord

    ghost predicate Valid()
      reads this, record, record.penalty
    {
      record.Valid()
    }

    /** The initial recorder holds `CacheDbRecord::default()`. */
    constructor ()
      ensures Valid() && fresh(record) && fresh(record.Repr() - {record})
      ensures record.Value() == DEFAULT_CACHEDB
    {
      record := new CacheDbRecord();
    }

    /** `hit_record`: one more hit, in the counter of `f` only. */
    method HitRecord(f: FunctionType)
      requires Valid() && CanHit(record.Value(), f)
      modifies record.hits
      ensures record.Value() == HitView(old(record.Value()), f)
    {
      var hits := record.hits;
      match f
      case Basic => hits.basic := hits.basic + 1;
      case CodeByHash => hits.codeByHash := hits.codeByHash + 1;
      case Storage => hits.storage := hits.storage + 1;
      case BlockHash => hits.blockHash := hits.blockHash + 1;
      case LoadAccount => hits.loadAccount := hits.loadAccount + 1;
    }

    /**
     * `miss_record`: one more miss of `f`, whose `cycles` are added to the penalty of `f`
     * and whose duration (`cyclesToNs(cycles)` nanoseconds) goes into the distribution.
     */
    method MissRecord(f: FunctionType, cycles: U64, cyclesToNs: U64 -> nat)
      requires Valid() && CanMiss(record.Value(), f, cycles, cyclesToNs(cycles))
      modifies record.misses, record.penalty, record.penalty.usPercentile, record.penalty.nsPercentile
      ensures record.Value() == MissView(old(record.Value()), f, cycles, cyclesToNs(cycles))
    {
      var misses, penalty := record.misses, record.penalty;
      CountMiss(misses, penalty, f, cycles);
      penalty.Percentile(cyclesToNs(cycles));
    }

    /** `get_record`: hand out the record collected so far and start again from the default. */
    method GetRecord() returns (r: CacheDbRecord)
      requires Valid()
      modifies this
      ensures r == old(record) && r.Valid() && r.Value() == old(record.Value())
      ensures Valid() && fresh(record) && fresh(record.Repr() - {record})
      ensures record.Value() == DEFAULT_CACHEDB
    {
      r := record;
      record := new CacheDbRecord();
    }
  }

  /** A guard whose drop records one hit of its function. */
  class HitRecord {
    const func: FunctionType

    constructor (func: FunctionType)
      ensures this.func == func
    {
      this.func := func;
    }

    /** `drop`: exactly one `hit_record` of the stored function. */
    method Drop(recorder: CacheDbRecorder)
      requires recorder.Valid() && CanHit(recorder.record.Value(), func)
      modifies recorder.record.hits
      ensures recorder.record.Value() == HitView(old(recorder.record.Value()), func)
    {
      recorder.HitRecord(func);
    }
  }

  /** A guard that notes when a miss started; its drop records the miss with the cycles it took. */
  class MissRecord {
    const func: FunctionType
    const startTime: nat

    /** `MissRecord::new`, with the clock reading `now` taken at creation. */
    constructor (func: FunctionType, now: nat)
      ensures this.func == func && startTime == now
    {
      this.func := func;
      startTime := now;
    }

    /**
     * `drop` at clock reading `now`: exactly one `miss_record` of the stored function with
     * `now - startTime` cycles (a clock that went backwards, or a span beyond u64, panics).
     */
    method Drop(recorder: CacheDbRecorder, now: nat, cyclesToNs: U64 -> nat)
      requires startTime <= now && now - startTime <= U64_MAX
      requires recorder.Valid() && CanMiss(recorder.record.Value(), func, now - startTime, cyclesToNs(now - startTime))
      modifies recorder.record.misses, recorder.record.penalty
      modifies recorder.record.penalty.usPercentile, recorder.record.penalty.nsPercentile
      ensures recorder.record.Value() == MissView(old(recorder.record.Value()), func, now - startTime, cyclesToNs(now - startTime))
    {
      var cycles: U64 := now - startTime;
      recorder.MissRecord(func, cycles, cyclesToNs);
    }
  }
}
