# revm interpreter loop and execution metrics, in Dafny

This project models three parts of the megaeth-labs fork of revm:

- **The interpreter loop** (`crates/interpreter/src/interpreter.rs`).
  - The instruction pointer is an index `pc` into the contract's bytecode.
  - `step` reads the opcode at `pc`, moves `pc` past it and dispatches it to the handler `eval`.
  - `run` repeats `step` while the result is `Continue`.
  - `run_inspect` also asks the host's `step` hook before each step and its `step_end` hook after it. Either hook may end the run.
  - With the `enable_opcode_metrics` feature (the field `metrics` here), every step charges the opcode's gas in the record. With `enable_metric_record` as well, it also counts and times the opcode.
- **The metric record types**:
  - `crates/utils/src/types.rs`: the per-opcode record with its SLOAD duration ladder, and the CacheDb hit, miss and penalty record.
  - `crates/utils/src/metrics/types.rs`: the array-based CacheDb record.
- **The recorders** of `cachedb_metric.rs`, `instruction_metric.rs`, `metric.rs` and `instrument.rs`. Each is one mutable recorder holding a record and its clock state.

Module layout, one module per source file:

- `Types` (types.dfy) models `crates/utils/src/types.rs`. The `OpcodeRecord` of `crates/utils/src/metrics/types.rs` is identical, line for line, so it is modelled only once, in `Types.OpcodeRecord`.
- `MetricsTypes` (metrics_types.dfy) models the rest of `crates/utils/src/metrics/types.rs`.
- `CacheDbMetric` (cachedb_metric.dfy) models `crates/utils/src/cachedb_metric.rs`.
- `InstructionMetric` (instruction_metric.dfy) models `crates/utils/src/instruction_metric.rs`.
  - `crates/utils/src/metric.rs` is the same code under other names. Its recorder is the type `Metric.MetricRecorder`, an alias of `InstructionMetric.InstructionMetricRecorder`, so every row cited for instruction_metric.rs applies to metric.rs at the same lines.
- `Instrument` (instrument.dfy) models `crates/utils/src/instrument.rs`.
- `Interpreter` (interpreter.dfy) models `crates/interpreter/src/interpreter.rs`.
- `Wrappers` (wrappers.dfy) holds `Option`.

How the model works:

- **Arrays.** Records whose Rust arrays are updated in place are classes with `array` fields. Each class has value views (`Ops()`, `Sloads()`, `Value()`, `Counts()`). Each method is specified by a function on those views, and the lemmas about those functions state the invariants:
  - the totals;
  - "every access is counted once";
  - the correctness of the first-merge swap.
- **Overflow.** Every `checked_add(..).expect("overflow")` becomes a precondition that the sum fits the field's width. The widths are the subset types `U64`, `I64` and `I128`.
- **Clocks.** Clock readings are `nat` arguments (`now`). `run` and `run_inspect` take a function `clock`, and step `i` reads `clock(i)`.
- **Runs.** A run of the interpreter is specified by fuel-indexed functions:
  - `Exec` and `Steps` for `run`;
  - `Inspect` for `run_inspect`.

  The methods `Run`, `StepWhileContinue` and `RunInspect` are proved to end in exactly the state these functions give.

## Model

| member | source | states |
|---|---|---|
| Interpreter.LimitValues | crates/interpreter/src/interpreter.rs:18-25 | MAX_CODE_SIZE is 0x6000 = 24576 (EIP-170); MAX_INITCODE_SIZE is twice that, 49152 (EIP-3860); the stack and call stack limits are both 1024 |
| Interpreter.Interpreter.New | crates/interpreter/src/interpreter.rs:96-125 | a new interpreter has its cursor at offset 0, result `Continue`, empty memory, stack and return data, the default return range, the whole gas limit left and the given `is_static`; with metrics, a default record and no clock readings |
| Interpreter.Interpreter.CurrentOpcode | crates/interpreter/src/interpreter.rs:66-68 | the opcode is the code byte under the cursor; on the last byte of analysed code it is STOP |
| Interpreter.Interpreter.ProgramCounter | crates/interpreter/src/interpreter.rs:194-200 | the program counter is the cursor's offset from the start of the bytecode, and the byte at that offset is the current opcode; `Step` dispatches to the handler with the frame whose program counter is one past the old one |
| Interpreter.Interpreter.ReturnValue | crates/interpreter/src/interpreter.rs:296-306 | empty when the range starts at `usize::MAX`; otherwise exactly the `end - start` memory bytes from `start`, which needs `start <= end <= |memory|` |
| Interpreter.Interpreter.Step | crates/interpreter/src/interpreter.rs:204-252 | one step reads the opcode at the cursor, moves the cursor past it, dispatches, then meters; the new state is `StepSpec` of the old one, the new frame and host are the handler's answer for the old `CurrentOpcode` on the old frame with the program counter one past the old `ProgramCounter`, and the SLOAD ladder, total time and start time stay as they were |
| Interpreter.Interpreter.RecordOpcodeMetrics | crates/interpreter/src/interpreter.rs:215-251 | the metric part of `step`: the opcode table becomes `MeteredOps` of the old one; `is_updated` is set and `pre_time` moves to `now` exactly when metric recording is on; the frame (cursor, result, gas, memory, stack, return data and range), the start time, the total time and the SLOAD ladder are unchanged |
| Interpreter.StepTouchesOnlyItsOpcode | crates/interpreter/src/interpreter.rs:215-251 | only the executed opcode's entry changes: its gas grows by the used gas plus the refund (metrics on), its count by one and its time by the time since `pre_time` (recording on); the record becomes updated and `pre_time` becomes `now` exactly when recording is on |
| Interpreter.StepKeepsCursorInCode | crates/interpreter/src/interpreter.rs:205-210 | when the code ends in STOP, STOP halts, and each continuing instruction leaves the cursor no further than the byte after it or on the code, a step never leaves a continuing interpreter with its cursor past the code |
| Interpreter.NoMetricsAlwaysFits | crates/interpreter/src/interpreter.rs:204-213 | without the metrics feature and on code that ends in STOP, nothing can overflow, so a run with a handler that respects the padding is defined for any fuel |
| Interpreter.Steps | crates/interpreter/src/interpreter.rs:262-264 | a run takes at most `fuel` steps |
| Interpreter.ExecStopsOnlyWhenDone | crates/interpreter/src/interpreter.rs:262-264 | the loop stops with `Continue` only after using all its fuel |
| Interpreter.MoreFuelSameRun | crates/interpreter/src/interpreter.rs:262-264 | once a run has halted, more fuel changes neither the final state nor the number of steps |
| Interpreter.ExecAccounts | crates/interpreter/src/interpreter.rs:226-250 | with metric recording, a run raises the table's execution total by the number of steps, and its time sum by exactly the time between the first and the last clock reading |
| Interpreter.StepAccounts | crates/interpreter/src/interpreter.rs:226-250 | with metric recording, one step adds one execution, plus the time since `pre_time`, to the table, and moves `pre_time` to `now` |
| Interpreter.ExecAdvance | crates/interpreter/src/interpreter.rs:262-264 | one more iteration of a run that continues keeps the run on its way to the same final state and step count |
| Interpreter.ExecFinish | crates/interpreter/src/interpreter.rs:262-264 | when the loop guard fails, the run has reached its final state with its full step count |
| Interpreter.Conclude | crates/interpreter/src/interpreter.rs:272-273 | the value returned is the halting result, and never `Continue`; `OutOfFuel` marks the fuel bound |
| Interpreter.Interpreter.StepWhileContinue | crates/interpreter/src/interpreter.rs:262-264 | the `while` loop of `run`: it ends in `Exec` of the starting state, after `Steps` steps, and leaves the total time, the start time and the SLOAD ladder alone |
| Interpreter.Interpreter.Run | crates/interpreter/src/interpreter.rs:255-274 | with metrics on, both clocks start at the first reading; the loop of `StepWhileContinue` follows; the outcome is the final result and never `Continue`; with metrics on and the run halted, the total time is the time from the start to the reading after the last step; with metrics off the start time is unchanged; the SLOAD ladder is never touched |
| Interpreter.InspectBeforeStep | crates/interpreter/src/interpreter.rs:280-283 | a non-`Continue` answer of the host's `step` hook ends the run with that answer, before the step runs, so the frame the hook saw is the final frame; a `Continue` answer lets the step run |
| Interpreter.InspectAfterStep | crates/interpreter/src/interpreter.rs:284-290 | after a step, a non-`Continue` answer of `step_end` ends the run with that answer; otherwise the run goes on from the new state |
| Interpreter.InspectFinish | crates/interpreter/src/interpreter.rs:291-292 | when the loop ends without a hook stopping it, the run returns the interpreter's own final result |
| Interpreter.InspectNeverReturnsContinue | crates/interpreter/src/interpreter.rs:277-293 | whoever ends it, `run_inspect` never returns `Continue` |
| Interpreter.TransparentInspectIsExec | crates/interpreter/src/interpreter.rs:255-293 | with hooks that let every step through and change nothing, `run_inspect` is defined exactly when `run`'s loop is, and ends in the same state with the same result |
| Interpreter.Interpreter.RunInspect | crates/interpreter/src/interpreter.rs:277-293 | the interpreter and host end as `Inspect` says, the outcome is never `Continue`, and the total time, the start time and the SLOAD ladder are unchanged |
| Types.FirstStepFrom | crates/utils/src/types.rs:81-89 | the rung found is the first rung at or after `k` whose threshold exceeds the duration; none is found when every threshold from `k` on is at most the duration |
| Types.FirstStep | crates/utils/src/types.rs:80-90 | a duration falls in the first rung whose threshold exceeds it, and in no rung exactly when it is `u64::MAX` |
| Types.TotalCountMerged | crates/utils/src/types.rs:56-69 | merging two opcode tables adds up their execution totals |
| Types.TotalCountUpdate | crates/utils/src/types.rs:56-69 | replacing one entry of a table changes the execution total by the difference of the two counts |
| Types.TimeSumUpdate | crates/utils/src/types.rs:56-69 | replacing one entry of a table changes the time sum by the difference of the two times |
| Types.EmptyTotals | crates/utils/src/types.rs:24-33 | the default table records no executions and no time |
| Types.CountedTotals | crates/utils/src/types.rs:36-46 | counting one execution of one opcode raises the execution total by one and the time sum by its duration |
| Types.GasOnlyTotals | crates/utils/src/types.rs:65-68 | changing only an entry's gas changes neither the execution total nor the time sum |
| Types.SloadTotalUpdate | crates/utils/src/types.rs:71-76 | replacing one rung changes the ladder's SLOAD total by the difference of the two counts |
| Types.SloadAddedCounts | crates/utils/src/types.rs:80-90 | counting an SLOAD never changes the rungs' thresholds, and raises the ladder's total by one, except for a `u64::MAX` duration, which no rung takes |
| Types.FirstMergeIsSum | crates/utils/src/types.rs:48-54 | the first-merge swap gives the same table and ladder as the pointwise sum would, provided the receiving record still holds default arrays with the default rungs |
| Types.MergeOpsInto | crates/utils/src/types.rs:56-69 | the first loop of `update`: every one of the 256 entries becomes the sum of the two entries |
| Types.MergeSloadsInto | crates/utils/src/types.rs:71-76 | the second loop of `update`: every SLOAD count becomes the sum of the two counts, while the rungs stay those of the receiving record |
| Types.OpcodeRecord.constructor | crates/utils/src/types.rs:24-33 | the default record: 256 entries `(0, 0, 0)`, rungs `(1,0), (10,0), (100,0), (u64::MAX,0)`, total time 0, not updated |
| Types.OpcodeRecord.NotEmpty | crates/utils/src/types.rs:92-94 | true exactly when the record is updated; the contracts of `Update` and of the recorders' `record`, `get_record` and `new` are stated through it: merging a record that is not `NotEmpty` changes nothing, and a recorded or merged record is `NotEmpty` |
| Types.OpcodeRecord.Update | crates/utils/src/types.rs:38-77 | when `other` is not updated, nothing changes; otherwise the total times add up and `self` becomes updated; on the first merge the two records swap their arrays; later merges add them pointwise and leave `other` as it was |
| Types.OpcodeRecord.AddSloadOpcodeRecord | crates/utils/src/types.rs:80-90 | the ladder becomes `SloadAdded`: one more SLOAD on the first rung above the duration, and no change for `u64::MAX` |
| Types.PointwiseBump | crates/utils/src/types.rs:107-123 | adding one to a counter in either operand of a pointwise sum adds one to the same counter of the sum |
| Types.AddPointwise | crates/utils/src/types.rs:201-211 | the distribution loop of `update`: each bucket becomes the sum of the two buckets |
| Types.SeqSumBump | crates/utils/src/types.rs:214-226 | adding one to a bucket adds one to the distribution's total |
| Types.SeqSumPointwise | crates/utils/src/types.rs:201-211 | the total of a pointwise sum of distributions is the sum of the two totals |
| Types.UsIndex | crates/utils/src/types.rs:214-220 | the microsecond bucket of a penalty is its number of whole microseconds, capped at bucket 199 |
| Types.CacheHits.constructor | crates/utils/src/types.rs:97-105 | the default hits are all zero |
| Types.CacheHits.Update | crates/utils/src/types.rs:107-123 | each of the five hit counters becomes the sum of the two |
| Types.CacheMisses.constructor | crates/utils/src/types.rs:126-134 | the default misses are all zero |
| Types.CacheMisses.Update | crates/utils/src/types.rs:136-152 | each of the five miss counters becomes the sum of the two |
| Types.CacheMissesPenalty.constructor | crates/utils/src/types.rs:171-183 | the default penalty: five zero counters, 200 zero microsecond buckets and 10 zero 100-nanosecond buckets |
| Types.CacheMissesPenalty.Update | crates/utils/src/types.rs:185-212 | the five penalties and both distributions become pointwise sums |
| Types.CacheMissesPenalty.Percentile | crates/utils/src/types.rs:214-226 | one more penalty in its capped microsecond bucket; below one microsecond, that bucket is 0, and the penalty also goes in its 100-nanosecond bucket |
| Types.CacheDbRecord.constructor | crates/utils/src/types.rs:229-236 | the default CacheDb record is all zeros |
| Types.CacheDbRecord.Update | crates/utils/src/types.rs:239-243 | the merge is exactly the three component merges |
| Types.CacheDbRecord.TotalInBasic | crates/utils/src/types.rs:245-251 | the accesses in `basic`: its hits plus its misses, which is `CacheDbMetric.AccessCount` of `Basic` (see `CacheDbMetric.TotalIn`) |
| Types.CacheDbRecord.TotalInCodeByHash | crates/utils/src/types.rs:253-259 | the accesses in `code_by_hash`: its hits plus its misses, which is `CacheDbMetric.AccessCount` of `CodeByHash` (see `CacheDbMetric.TotalIn`) |
| Types.CacheDbRecord.TotalInStorage | crates/utils/src/types.rs:261-267 | the accesses in `storage`: its hits plus its misses, which is `CacheDbMetric.AccessCount` of `Storage` (see `CacheDbMetric.TotalIn`) |
| Types.CacheDbRecord.TotalInBlockHash | crates/utils/src/types.rs:269-275 | the accesses in `block_hash`: its hits plus its misses, which is `CacheDbMetric.AccessCount` of `BlockHash` (see `CacheDbMetric.TotalIn`) |
| Types.CacheDbRecord.TotalInLoadAccount | crates/utils/src/types.rs:277-283 | the accesses in `load_account`: its hits plus its misses, which is `CacheDbMetric.AccessCount` of `LoadAccount` (see `CacheDbMetric.TotalIn`) |
| Types.CacheDbRecord.TotalHits | crates/utils/src/types.rs:285-297 | the hits of all five functions added up |
| Types.CacheDbRecord.TotalMiss | crates/utils/src/types.rs:299-313 | the misses of all five functions added up |
| Types.CacheDbRecord.TotalPenaltyTimes | crates/utils/src/types.rs:315-331 | the penalties of all five functions added up |
| MetricsTypes.Function.Index | crates/utils/src/metrics/types.rs:99-105 | `function as usize` is the declaration order: `Basic` is 0, `LoadAccount` is 4, every slot is below 5 |
| MetricsTypes.IndexInjective | crates/utils/src/metrics/types.rs:99-105 | distinct functions have distinct slots |
| MetricsTypes.AccessStats.constructor | crates/utils/src/metrics/types.rs:107-113 | the default stats are five zeros |
| MetricsTypes.AccessStats.Copy | crates/utils/src/metrics/types.rs:107-108 | a copy of the stats has the same counts in fresh storage |
| MetricsTypes.AccessStats.Update | crates/utils/src/metrics/types.rs:115-122 | the five slots become pointwise sums |
| MetricsTypes.AccessStats.Increment | crates/utils/src/metrics/types.rs:124-126 | `increment(f)` adds one to slot `f`, and to nothing else |
| MetricsTypes.AccessStats.Add | crates/utils/src/metrics/types.rs:128-131 | `add(f, v)` adds `v` to slot `f as usize`, and to nothing else |
| MetricsTypes.MissesPenalty.constructor | crates/utils/src/metrics/types.rs:149-157 | the default penalty: five zero counters, 200 zero microsecond buckets and 40 zero 100-nanosecond buckets |
| MetricsTypes.MissesPenalty.Copy | crates/utils/src/metrics/types.rs:137-147 | a copy of the penalty has the same counters and distributions in fresh storage |
| MetricsTypes.MissesPenalty.Update | crates/utils/src/metrics/types.rs:160-173 | `time` and both distributions become pointwise sums |
| MetricsTypes.MissesPenalty.Percentile | crates/utils/src/metrics/types.rs:175-188 | one more penalty in its capped microsecond bucket; below four microseconds, also one in its 100-nanosecond bucket |
| MetricsTypes.AccessCountCountsEachAccess | crates/utils/src/metrics/types.rs:211-244 | a hit and a miss in `f` each raise the access count of `f` by one and leave the other functions' counts alone |
| MetricsTypes.AccessCountMerged | crates/utils/src/metrics/types.rs:204-215 | the access count of a merged record is the pointwise sum of the two records' access counts |
| MetricsTypes.CacheDbRecord.constructor | crates/utils/src/metrics/types.rs:191-200 | the default record is all zeros |
| MetricsTypes.CacheDbRecord.Update | crates/utils/src/metrics/types.rs:204-208 | the merge is exactly the three component merges, giving `MergedRecord` |
| MetricsTypes.CacheDbRecord.AccessCount | crates/utils/src/metrics/types.rs:211-215 | returns fresh stats holding hits plus misses, pointwise, and leaves the record unchanged |
| MetricsTypes.CacheDbRecord.HitStats | crates/utils/src/metrics/types.rs:218-220 | returns a copy of the hits |
| MetricsTypes.CacheDbRecord.MissStats | crates/utils/src/metrics/types.rs:223-225 | returns a copy of the misses |
| MetricsTypes.CacheDbRecord.PenaltyStats | crates/utils/src/metrics/types.rs:228-230 | returns a copy of the penalties and both distributions |
| MetricsTypes.CacheDbRecord.Hit | crates/utils/src/metrics/types.rs:233-235 | one more hit in `f`; misses and penalty unchanged |
| MetricsTypes.CacheDbRecord.Miss | crates/utils/src/metrics/types.rs:239-244 | one more miss in `f`, the penalty added to `f`'s penalty time and counted in the distributions; hits unchanged |
| CacheDbMetric.AddTo | crates/utils/src/cachedb_metric.rs:36-89 | adds `value` to the counter of `f` only, which raises the five-field total by `value` |
| CacheDbMetric.DefaultAccounted | crates/utils/src/cachedb_metric.rs:98-103 | the default record is accounted for: the microsecond distribution and the misses both total zero |
| CacheDbMetric.ZeroSum | crates/utils/src/types.rs:171-183 | helper for `DefaultAccounted`: the all-zero percentile distributions of the default record total zero |
| CacheDbMetric.HitCountsOnce | crates/utils/src/cachedb_metric.rs:9-34 | a hit raises its function's hits, and the hit total, by one; the other counters are unchanged, and the record stays accounted for |
| CacheDbMetric.MissCountsOnce | crates/utils/src/cachedb_metric.rs:36-94 | a miss raises the miss total by one and the penalty total by its cycles, is counted once in the microsecond distribution, leaves the hits alone, and keeps the record accounted for |
| CacheDbMetric.TotalIn | crates/utils/src/types.rs:245-283 | each `total_in_*` getter gives the accesses of its function, its hits plus its misses |
| CacheDbMetric.AccessCountsAddUp | crates/utils/src/types.rs:245-313 | the five `total_in_*` access counts add up to `total_hits` plus `total_miss` |
| CacheDbMetric.HitIsOneAccess | crates/utils/src/cachedb_metric.rs:9-34 | a hit raises the access count of its function by exactly one and leaves the other functions' counts alone |
| CacheDbMetric.MissIsOneAccess | crates/utils/src/cachedb_metric.rs:36-94 | a miss raises the access count of its function by exactly one and leaves the other functions' counts alone |
| Interpreter.StraightLineHandlerRespectsPadding | crates/interpreter/src/interpreter.rs:204-213 | a handler that halts only on STOP and otherwise continues in place meets the padding premise on the code `[0x01, 0x00]` |
| CacheDbMetric.MergeAccounted | crates/utils/src/types.rs:239-243 | merging two accounted records gives an accounted record |
| CacheDbMetric.CountMiss | crates/utils/src/cachedb_metric.rs:39-89 | the `match` of `miss_record`: one more miss for `f`, and `cycles` more penalty for `f` |
| CacheDbMetric.CacheDbRecorder.constructor | crates/utils/src/cachedb_metric.rs:5-7 | the recorder starts with the default record |
| CacheDbMetric.CacheDbRecorder.HitRecord | crates/utils/src/cachedb_metric.rs:9-34 | the record becomes `HitView`: one more hit for `f` only |
| CacheDbMetric.CacheDbRecorder.MissRecord | crates/utils/src/cachedb_metric.rs:36-94 | the record becomes `MissView`: one more miss and `cycles` more penalty for `f`, counted in the distributions |
| CacheDbMetric.CacheDbRecorder.GetRecord | crates/utils/src/cachedb_metric.rs:98-103 | returns the record collected so far and leaves a default one, so a second call returns the default record |
| CacheDbMetric.HitRecord.constructor | crates/utils/src/cachedb_metric.rs:119-123 | the guard stores its function |
| CacheDbMetric.HitRecord.Drop | crates/utils/src/cachedb_metric.rs:125-129 | dropping the guard records exactly one hit of its function |
| CacheDbMetric.MissRecord.constructor | crates/utils/src/cachedb_metric.rs:136-143 | the guard stores its function and the clock reading at creation |
| CacheDbMetric.MissRecord.Drop | crates/utils/src/cachedb_metric.rs:145-151 | dropping the guard records exactly one miss of its function, with `now - start_time` cycles |
| InstructionMetric.InstructionMetricRecorder.constructor | crates/utils/src/instruction_metric.rs:7-17 | the recorder starts with a default record, no clock readings, not started |
| InstructionMetric.InstructionMetricRecorder.StartRecord | crates/utils/src/instruction_metric.rs:20-31 | only the first call sets both clocks to `now`; later calls leave them alone; `started` becomes true; the time accounting is kept |
| InstructionMetric.InstructionMetricRecorder.Record | crates/utils/src/instruction_metric.rs:34-74 | only `op`'s entry changes: one more execution, plus the cycles since `pre_time`; `pre_time` becomes `now`; the total time becomes `now - start_time`; the SLOAD ladder changes only for 0x54; the record is updated; the opcode times keep adding up to the time since the start |
| InstructionMetric.InstructionMetricRecorder.GetRecord | crates/utils/src/instruction_metric.rs:77-86 | returns the record, then leaves a default record, no clock readings and `started` false |
| InstructionMetric.InstructionMetricRecorder.RecordGas | crates/utils/src/instruction_metric.rs:89-100 | adds the used gas to `op`'s gas, and to nothing else |
| Instrument.Instrument.constructor | crates/utils/src/instrument.rs:5-15 | the recorder starts with a default record, no clock readings, not started |
| Instrument.Instrument.StartRecord | crates/utils/src/instrument.rs:17-28 | every call sets `start_time` to `now`; only the first one sets `pre_time`; `started` becomes true |
| Instrument.Instrument.Record | crates/utils/src/instrument.rs:30-78 | only `op`'s entry changes: one more execution, plus the time since `pre_time`, and its gas changes by used minus refund; `pre_time` becomes `now`; only 0x54 touches the ladder, in whole microseconds; the record is updated |
| Instrument.Instrument.CountAndTime | crates/utils/src/instrument.rs:35-51 | one more execution of `op`, plus its duration, in `op`'s entry only |
| Instrument.Instrument.ChargeGas | crates/utils/src/instrument.rs:61-74 | `op`'s gas changes by `gas_used - gas_refund`; the subtraction is checked on i128 and only happens for a nonzero refund |
| Instrument.Instrument.EndRecord | crates/utils/src/instrument.rs:80-89 | the total time becomes `now - start_time`; nothing else changes |
| Instrument.Instrument.GetRecord | crates/utils/src/instrument.rs:91-100 | returns the record, then leaves a default record, no clock readings and `started` false |

## Left out

- The handler `eval`, the `Host`, and the internals of `Memory`, `Stack`, `Gas`, `Contract` and the bytecode analysis are not shown in the source. `eval` and the host hooks are function parameters.
  - The host's state is a value of a type parameter `H`, threaded through each call.
  - The hooks see the interpreter only through its frame, and are modelled as not changing the interpreter: only the host and the result come back. InspectBeforeStep's unchanged frame rests on that.
  - `eval` changes only the frame and the host.
- `InstructionResult` is reduced to `Continue | Halt(reason)`.
- `Gas::new(limit)` is modelled as `Gas(limit, limit)`.
- Memory is `seq<U8>` and the stack is a sequence of 256-bit words.
- The analysis that pads code with STOP is the precondition `EndsWithStop`.
  - The promise that STOP halts and that a continuing instruction leaves the cursor at most one past itself or on the code is the predicate `HandlersRespectPadding`. `StraightLineHandlerRespectsPadding` shows a handler that meets it.
- Raw pointers and `unsafe` are replaced by the index `pc`.
- The `memory_limit` feature and `new_with_memory_limit` are not modelled.
- The two cfg-variants of `new` are modelled as one constructor with a `metrics` flag. The accessors `contract`, `gas`, `memory` and `stack` are plain field reads.
- Interpreter.Interpreter.Run: the source loop has no bound. The model takes a `fuel` bound, and a run that exhausts it reports `OutOfFuel`. In that case no total time is set, because the source never reaches that point with `Continue`.
- Interpreter.Interpreter.RunInspect: the same fuel bound applies.
- Clocks are not modelled. Every reading of `minstant::Instant`, `time_utils::instant::Instant` and `rdtsc` is a `nat` argument, or `clock(i)` in a run.
  - `checked_duration_since` and `checked_cycles_since` become preconditions that readings do not go backwards.
- The source adds a `Duration` to `u64` columns (interpreter.rs, instrument.rs). The model uses integer nanoseconds.
- Floating point is not modelled. `convert_cycles_to_ns_f64` and `convert_cycles_to_ms` are function parameters.
- Types.CacheMissesPenalty.Percentile: computes on a whole number of nanoseconds, not on the `f64`. It does not model `f64` rounding, or truncating casts of non-integral values.
- MetricsTypes.MissesPenalty.Percentile: the same, on a whole number of nanoseconds.
- `thread_local!` and `RefCell` are left out. Each recorder is one class instance passed explicitly. `serde` derives are not modelled.
- crates/utils/src/metrics/metric.rs, crates/utils/src/metrics/cachedb.rs, crates/utils/src/time.rs, crates/primitives/src/log.rs and crates/utils/src/lib.rs are not part of this model. They are global wrappers, clock reads and re-exports.
- Overflow panics (`expect("overflow")`, `expect("... is empty")`) are preconditions, not modelled failures.
- The two gas columns disagree. The interpreter's `step` ADDS a nonzero `gas_refund` to the opcode's gas (interpreter.rs:225-231), while `instrument.rs` SUBTRACTS it (instrument.rs:68-74). Each is modelled as written.
- `run_inspect` never sets `pre_time`. With metric recording on, its first step's `expect("pre time is empty")` would panic, so `InspectFits` requires `pre_time` to be set in that case.
- Loops and matches are split off into helper methods. These are `StepWhileContinue`, `MergeOpsInto`, `MergeSloadsInto`, `AddPointwise`, `CountMiss`, `CountAndTime` and `ChargeGas`. The source has them inline, and each helper does exactly what the inline code does.
- The copies that Rust makes of `Copy` structs are modelled by the `Copy` constructors and methods. The `access_count`, `hit_stats`, `miss_stats` and `penalty_stats` methods return fresh objects.
