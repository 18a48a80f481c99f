/**
 * The CacheDb record of crates/utils/src/metrics/types.rs, where the per-function counters
 * are arrays indexed by `Function`.  Its `OpcodeRecord` is the same as the one of
 * crates/utils/src/types.rs and is modelled once, by `Types.OpcodeRecord`.
 */
module MetricsTypes {
  import opened Types

  /** The number of functions through which the cache is accessed. */
  const FUNCTION_COUNT: nat := 5
  /** Number of buckets of the 100-nanosecond level of the penalty distribution. */
  const METRICS_NS_PENALTY_STEP_SIZE: nat := 40
  /** Below this many nanoseconds a miss penalty is also counted at the 100-nanosecond level. */
  const METRICS_NS_LEVEL_BOUND: nat := 4000

  /** The function in which the cache is accessed. */
  datatype Function = Basic | CodeByHash | Storage | BlockHash | LoadAccount
  {
    /** `function as usize`: the declaration order, starting at `Basic = 0`. */
    function Index(): (i: nat)
      ensures i < FUNCTION_COUNT
      ensures this == Basic <==> i == 0
      ensures this == LoadAccount <==> i == FUNCTION_COUNT - 1
    {
      match this
      case Basic => 0
      case CodeByHash => 1
      case Storage => 2
      case BlockHash => 3
      case LoadAccount => 4
    }
  }

  /** Distinct functions have distinct slots. */
  lemma IndexInjective(f: Function, g: Function)
    ensures f.Index() == g.Index() <==> f == g
  {
  }

  const ZERO_COUNTS: seq<U64> := seq(FUNCTION_COUNT, _ => 0)

  /** `s` with `value` added to slot `i`. */
  function AddAt(s: seq<U64>, i: nat, value: U64): seq<U64>
    requires i < |s| && s[i] + value <= U64_MAX
  {
    s[i := s[i] + value]
  }

  /** The number of hits, misses or penalties in each function. */
  class AccessStats {
    const perFunction: array<U64>

    ghost predicate Valid() {
      perFunction.Length == FUNCTION_COUNT
    }

    function Counts(): seq<U64>
      reads perFunction
    {
      perFunction[..]
    }

    /** `AccessStats::default()`. */
    constructor ()
      ensures Valid() && fresh(perFunction) && Counts() == ZERO_COUNTS
    {
      perFunction := new U64[FUNCTION_COUNT](_ => 0);
    }

    /** The copy Rust makes of this `Copy` struct when it is returned by value. */
    constructor Copy(src: AccessStats)
      requires src.Valid()
      ensures Valid() && fresh(perFunction) && Counts() == src.Counts()
    {
      var a := new U64[FUNCTION_COUNT];
      forall i | 0 <= i < FUNCTION_COUNT {
        a[i] := src.perFunction[i];
      }
      perFunction := a;
    }

    /** `update`: pointwise sum over the five slots. */
    method Update(other: AccessStats)
      requires Valid() && other.Valid() && perFunction != other.perFunction
      requires PointwiseFit(Counts(), other.Counts())
      modifies perFunction
      ensures Counts() == PointwiseSum(old(Counts()), old(other.Counts()))
    {
      AddPointwise(perFunction, other.perFunction);
    }

    /** `increment`: `add(function, 1)`. */
    method Increment(f: Function)
      requires Valid() && Counts()[f.Index()] < U64_MAX
      modifies perFunction
      ensures Counts() == Bump(old(Counts()), f.Index())
    {
      Add(f, 1);
    }

    /** `add`: add `value` to the slot of `f` only. */
    method Add(f: Function, value: U64)
      requires Valid() && Counts()[f.Index()] + value <= U64_MAX
      modifies perFunction
      ensures Counts() == AddAt(old(Counts()), f.Index(), value)
    {
      var index := f.Index();
      perFunction[index] := perFunction[index] + value;
    }
  }

  /** The penalty of cache misses per function, and its distribution. */
  class MissesPenalty {
    const time: AccessStats
    const usPercentile: array<U64>
    const nsPercentile: array<U64>

    ghost predicate Valid() {
      time.Valid() && usPercentile.Length == US_PENALTY_STEP_SIZE && nsPercentile.Length == METRICS_NS_PENALTY_STEP_SIZE
    }

    function Us(): seq<U64>
      reads usPercentile
    {
      usPercentile[..]
    }

    function Ns(): seq<U64>
      reads nsPercentile
    {
      nsPercentile[..]
    }

    /** `MissesPenalty::default()`. */
    constructor ()
      ensures Valid() && fresh(time) && fresh(time.perFunction) && fresh(usPercentile) && fresh(nsPercentile)
      ensures time.Counts() == ZERO_COUNTS
      ensures Us() == seq(US_PENALTY_STEP_SIZE, _ => 0) && Ns() == seq(METRICS_NS_PENALTY_STEP_SIZE, _ => 0)
    {
      time := new AccessStats();
      usPercentile := new U64[US_PENALTY_STEP_SIZE](_ => 0);
      nsPercentile := new U64[METRICS_NS_PENALTY_STEP_SIZE](_ => 0);
    }

    /** The copy Rust makes of this `Copy` struct when it is returned by value. */
    constructor Copy(src: MissesPenalty)
      requires src.Valid()
      ensures Valid() && fresh(time) && fresh(time.perFunction) && fresh(usPercentile) && fresh(nsPercentile)
      ensures time.Counts() == src.time.Counts() && Us() == src.Us() && Ns() == src.Ns()
    {
      time := new AccessStats.Copy(src.time);
      var us := new U64[US_PENALTY_STEP_SIZE];
      forall i | 0 <= i < US_PENALTY_STEP_SIZE {
        us[i] := src.usPercentile[i];
      }
      var ns := new U64[METRICS_NS_PENALTY_STEP_SIZE];
      forall i | 0 <= i < METRICS_NS_PENALTY_STEP_SIZE {
        ns[i] := src.nsPercentile[i];
      }
      usPercentile := us;
      nsPercentile := ns;
    }

    /** `update`: pointwise sums of `time` and of both distributions. */
    method Update(other: MissesPenalty)
      requires Valid() && other.Valid()
      requires time.perFunction != other.time.perFunction
      requires usPercentile != other.usPercentile && nsPercentile != other.nsPercentile
      requires PointwiseFit(time.Counts(), other.time.Counts())
      requires PointwiseFit(Us(), other.Us()) && PointwiseFit(Ns(), other.Ns())
      modifies time.perFunction, usPercentile, nsPercentile
      ensures time.Counts() == PointwiseSum(old(time.Counts()), old(other.time.Counts()))
      ensures Us() == PointwiseSum(old(Us()), old(other.Us()))
      ensures Ns() == PointwiseSum(old(Ns()), old(other.Ns()))
    {
      time.Update(other.time);

      AddPointwise(usPercentile, other.usPercentile);
      AddPointwise(nsPercentile, other.nsPercentile);
    }

    /**
     * `percentile`, on a whole number of nanoseconds: every penalty is counted in its
     * microsecond bucket (the last bucket takes everything beyond); one below 4 microseconds
     * is also counted in its 100-nanosecond bucket.
     */
    method Percentile(timeInNs: nat)
      requires Valid()
      requires Us()[UsIndex(timeInNs)] < U64_MAX
      requires timeInNs < METRICS_NS_LEVEL_BOUND ==> Ns()[timeInNs / 100] < U64_MAX
      modifies usPercentile, nsPercentile
      ensures Us() == Bump(old(Us()), UsIndex(timeInNs))
      ensures Ns() == if timeInNs < METRICS_NS_LEVEL_BOUND then Bump(old(Ns()), timeInNs / 100) else old(Ns())
    {
      var index := timeInNs / 1000;
      if index > US_PENALTY_STEP_SIZE - 1 {
        index := US_PENALTY_STEP_SIZE - 1;
      }
      usPercentile[index] := usPercentile[index] + 1;

      if timeInNs < 4000 {
        var nsIndex := timeInNs / 100;
        nsPercentile[nsIndex] := nsPercentile[nsIndex] + 1;
      }
    }
  }

  /** The whole record as a value: hits, misses, penalty time, and the two distributions. */
  datatype RecordView = RecordView(hits: seq<U64>, misses: seq<U64>, time: seq<U64>, us: seq<U64>, ns: seq<U64>)

  predicate WellSized(v: RecordView) {
    |v.hits| == FUNCTION_COUNT && |v.misses| == FUNCTION_COUNT && |v.time| == FUNCTION_COUNT
    && |v.us| == US_PENALTY_STEP_SIZE && |v.ns| == METRICS_NS_PENALTY_STEP_SIZE
  }

  predicate CanHit(v: RecordView, f: Function) {
    WellSized(v) && v.hits[f.Index()] < U64_MAX
  }

  /** The record after a hit in `f`. */
  function AfterHit(v: RecordView, f: Function): RecordView
    requires CanHit(v, f)
  {
    v.(hits := Bump(v.hits, f.Index()))
  }

  predicate CanMiss(v: RecordView, f: Function, penalty: U64, timeInNs: nat) {
    && WellSized(v)
    && v.misses[f.Index()] < U64_MAX
    && v.time[f.Index()] + penalty <= U64_MAX
    && v.us[UsIndex(timeInNs)] < U64_MAX
    && (timeInNs < METRICS_NS_LEVEL_BOUND ==> v.ns[timeInNs / 100] < U64_MAX)
  }

  /** The record after a miss in `f` with the given penalty, which lasted `timeInNs` nanoseconds. */
  function AfterMiss(v: RecordView, f: Function, penalty: U64, timeInNs: nat): RecordView
    requires CanMiss(v, f, penalty, timeInNs)
  {
    RecordView(v.hits, Bump(v.misses, f.Index()), AddAt(v.time, f.Index(), penalty),
               Bump(v.us, UsIndex(timeInNs)),
               if timeInNs < METRICS_NS_LEVEL_BOUND then Bump(v.ns, timeInNs / 100) else v.ns)
  }

  /** The access count of a record: hits plus misses, per function. */
  function AccessCountOf(v: RecordView): seq<U64>
    requires WellSized(v) && PointwiseFit(v.hits, v.misses)
  {
    PointwiseSum(v.hits, v.misses)
  }

  /**
   * Each hit and each miss is one access: either one raises the access count of its own
   * function by one and leaves the other functions' counts as they were.
   */
  lemma AccessCountCountsEachAccess(v: RecordView, f: Function, penalty: U64, timeInNs: nat)
    requires CanHit(v, f) && CanMiss(v, f, penalty, timeInNs)
    requires PointwiseFit(v.hits, v.misses) && v.hits[f.Index()] + v.misses[f.Index()] < U64_MAX
    ensures PointwiseFit(AfterHit(v, f).hits, AfterHit(v, f).misses)
    ensures PointwiseFit(AfterMiss(v, f, penalty, timeInNs).hits, AfterMiss(v, f, penalty, timeInNs).misses)
    ensures AccessCountOf(AfterHit(v, f)) == AccessCountOf(AfterMiss(v, f, penalty, timeInNs))
            == Bump(AccessCountOf(v), f.Index())
  {
    PointwiseBump(v.hits, v.misses, f.Index());
  }

  predicate RecordsFit(a: RecordView, b: RecordView) {
    && PointwiseFit(a.hits, b.hits) && PointwiseFit(a.misses, b.misses) && PointwiseFit(a.time, b.time)
    && PointwiseFit(a.us, b.us) && PointwiseFit(a.ns, b.ns)
  }

  /** The record obtained by merging `b` into `a`: every counter is the sum of the two. */
  function MergedRecord(a: RecordView, b: RecordView): RecordView
    requires RecordsFit(a, b)
  {
    RecordView(PointwiseSum(a.hits, b.hits), PointwiseSum(a.misses, b.misses), PointwiseSum(a.time, b.time),
               PointwiseSum(a.us, b.us), PointwiseSum(a.ns, b.ns))
  }

  /** The access count of a merged record is the sum of the access counts of the two records. */
  lemma AccessCountMerged(a: RecordView, b: RecordView)
    requires WellSized(a) && WellSized(b) && RecordsFit(a, b)
    requires PointwiseFit(a.hits, a.misses) && PointwiseFit(b.hits, b.misses)
    requires PointwiseFit(MergedRecord(a, b).hits, MergedRecord(a, b).misses)
    ensures WellSized(MergedRecord(a, b)) && PointwiseFit(AccessCountOf(a), AccessCountOf(b))
    ensures AccessCountOf(MergedRecord(a, b)) == PointwiseSum(AccessCountOf(a), AccessCountOf(b))
  {
    var m := MergedRecord(a, b);
    forall i | 0 <= i < FUNCTION_COUNT
      ensures AccessCountOf(a)[i] as int + AccessCountOf(b)[i] as int == m.hits[i] as int + m.misses[i] as int
    {
    }
  }

  /** The CacheDb record: hits, misses and penalties, per function. */
  class CacheDbRecord {
    const hits: AccessStats
    const misses: AccessStats
    const penalty: MissesPenalty

    ghost function Repr(): set<object> {
      {this, hits, hits.perFunction, misses, misses.perFunction, penalty, penalty.time,
       penalty.time.perFunction, penalty.usPercentile, penalty.nsPercentile}
    }

    ghost predicate Valid() {
      && hits.Valid() && misses.Valid() && penalty.Valid()
      && hits.perFunction != misses.perFunction
      && hits.perFunction != penalty.time.perFunction
      && misses.perFunction != penalty.time.perFunction
    }

    function Value(): RecordView
      reads hits.perFunction, misses.perFunction, penalty.time.perFunction, penalty.usPercentile, penalty.nsPercentile
    {
      RecordView(hits.Counts(), misses.Counts(), penalty.time.Counts(), penalty.Us(), penalty.Ns())
    }

    /** `CacheDbRecord::default()`. */
    constructor ()
      ensures Valid() && fresh(Repr() - {this})
      ensures Value() == RecordView(ZERO_COUNTS, ZERO_COUNTS, ZERO_COUNTS,
                                    seq(US_PENALTY_STEP_SIZE, _ => 0), seq(METRICS_NS_PENALTY_STEP_SIZE, _ => 0))
    {
      hits := new AccessStats();
      misses := new AccessStats();
      penalty := new MissesPenalty();
    }

    /** `update`: exactly the three component updates. */
    method Update(other: CacheDbRecord)
      requires Valid() && other.Valid() && Repr() !! other.Repr()
      requires RecordsFit(Value(), other.Value())
      modifies hits.perFunction, misses.perFunction, penalty.time.perFunction, penalty.usPercentile, penalty.nsPercentile
      ensures Value() == MergedRecord(old(Value()), old(other.Value()))
    {
      hits.Update(other.hits);
      misses.Update(other.misses);
      penalty.Update(other.penalty);
    }

    /** `access_count`: a copy of the hits with the misses merged in; the record is not changed. */
    method AccessCount() returns (stats: AccessStats)
      requires Valid() && PointwiseFit(hits.Counts(), misses.Counts())
      ensures fresh(stats) && fresh(stats.perFunction) && stats.Valid()
      ensures stats.Counts() == AccessCountOf(Value())
    {
      stats := new AccessStats.Copy(hits);
      stats.Update(misses);
    }

    /** `hit_stats`: a copy of the hits. */
    method HitStats() returns (stats: AccessStats)
      requires Valid()
      ensures fresh(stats) && fresh(stats.perFunction) && stats.Valid() && stats.Counts() == Value().hits
    {
      stats := new AccessStats.Copy(hits);
    }

    /** `miss_stats`: a copy of the misses. */
    method MissStats() returns (stats: AccessStats)
      requires Valid()
      ensures fresh(stats) && fresh(stats.perFunction) && stats.Valid() && stats.Counts() == Value().misses
    {
      stats := new AccessStats.Copy(misses);
    }

    /** `penalty_stats`: a copy of the penalties and their distribution. */
    method PenaltyStats() returns (stats: MissesPenalty)
      requires Valid()
      ensures fresh(stats) && fresh(stats.time) && fresh(stats.time.perFunction)
      ensures fresh(stats.usPercentile) && fresh(stats.nsPercentile) && stats.Valid()
      ensures stats.time.Counts() == Value().time && stats.Us() == Value().us && stats.Ns() == Value().ns
    {
      stats := new MissesPenalty.Copy(penalty);
    }

    /** `hit`: one more hit in `f`. */
    method Hit(f: Function)
      requires Valid() && CanHit(Value(), f)
      modifies hits.perFunction
      ensures Value() == AfterHit(old(Value()), f)
    {
      hits.Increment(f);
    }

    /**
     * `miss`: one more miss in `f`, whose penalty is added to that function's penalty
     * time and counted in the distribution; `cyclesToNs` converts cycles to nanoseconds.
     */
    method Miss(f: Function, penaltyCycles: U64, cyclesToNs: U64 -> nat)
      requires Valid() && CanMiss(Value(), f, penaltyCycles, cyclesToNs(penaltyCycles))
      modifies misses.perFunction, penalty.time.perFunction, penalty.usPercentile, penalty.nsPercentile
      ensures Value() == AfterMiss(old(Value()), f, penaltyCycles, cyclesToNs(penaltyCycles))
    {
      misses.Increment(f);
      penalty.time.Add(f, penaltyCycles);
      penalty.Percentile(cyclesToNs(penaltyCycles));
    }
  }
}
