/**
 * The opcode recorder of crates/utils/src/instruction_metric.rs: one recorder (in Rust the
 * thread-local `INSTRUCTION_RECORDER`) that counts and times opcode executions between
 * `start_record` and `get_record`.  Clock readings are cycle counts, passed as `now`.
 */
module InstructionMetric {
  import opened Wrappers
  import opened Types

  /** The recorder: its record and the state of the clock. */
  class InstructionMetricRecorder {
    var record: OpcodeRecord
    var startTime: Option<nat>
    var preTime: Option<nat>
    var started: bool

    ghost predicate Valid()
      reads this, record
    {
      record.Valid()
    }

    /**
     * What the recorder's clocks and table tell about each other: before the start nothing
     * has been timed; after it the times of all opcodes add up to the time since the start
     * up to the last recorded opcode, which is also the record's total time once anything
     * was recorded.
     */
    ghost predicate TimesAccounted()
      reads this, record, record.opcodeRecord
    {
      && (!started ==> startTime.None? && preTime.None? && TimeSum(record.Ops()) == 0 && !record.isUpdated)
      && (started ==>
            && startTime.Some? && preTime.Some? && startTime.value <= preTime.value
            && TimeSum(record.Ops()) == preTime.value - startTime.value
            && (record.isUpdated ==> record.totalTime == preTime.value - startTime.value))
    }

    /** `InstructionMetricRecoder::default()`. */
    constructor ()
      ensures Valid() && fresh(record) && fresh(record.opcodeRecord) && fresh(record.sloadOpcodeRecord)
      ensures record.Ops() == DEFAULT_OPS && record.Sloads() == DEFAULT_SLOADS
      ensures record.totalTime == 0 && !record.NotEmpty()
      ensures startTime.None? && preTime.None? && !started
      ensures TimesAccounted()
    {
      record := new OpcodeRecord();
      startTime, preTime, started := None, None, false;
      EmptyTotals(OPCODE_COUNT);
    }

    /** `start_record` at clock reading `now`: only the first call since the last reset sets the clocks. */
    method StartRecord(now: nat)
      modifies this
      ensures started && record == old(record)
      ensures old(started) ==> startTime == old(startTime) && preTime == old(preTime)
      ensures !old(started) ==> startTime == Some(now) && preTime == Some(now)
      ensures old(TimesAccounted()) ==> TimesAccounted()
    {
      if !started {
        startTime := Some(now);
        preTime := Some(now);
      }
      started := true;
    }

    /**
     * `record(opcode)` at clock reading `now`: one more execution of `opcode`, which took the
     * cycles since the previous reading; the total time becomes the cycles since the start,
     * and an SLOAD's duration, converted by `cyclesToMs`, is counted in the SLOAD ladder.
     * Both clocks must have been set, and must not be ahead of `now`.
     */
    method Record(opcode: U8, now: nat, cyclesToMs: U64 -> U64)
      requires Valid() && preTime.Some? && startTime.Some?
      requires preTime.value <= now && startTime.value <= now && now - startTime.value <= U64_MAX
      requires CanCount(record.Ops()[opcode], now - preTime.value)
      requires opcode == SLOAD ==> SloadRoom(record.Sloads(), cyclesToMs(now - preTime.value))
      modifies this, record, record.opcodeRecord, record.sloadOpcodeRecord
      ensures Valid() && record == old(record)
      ensures record.opcodeRecord == old(record.opcodeRecord) && record.sloadOpcodeRecord == old(record.sloadOpcodeRecord)
      ensures record.Ops() == old(record.Ops()[opcode := Counted(record.Ops()[opcode], now - preTime.value)])
      ensures record.Sloads() == if opcode == SLOAD
                                 then old(SloadAdded(record.Sloads(), cyclesToMs(now - preTime.value)))
                                 else old(record.Sloads())
      ensures preTime == Some(now) && startTime == old(startTime) && started == old(started)
      ensures record.totalTime == now - startTime.value && record.NotEmpty()
      ensures old(TimesAccounted()) ==> TimesAccounted()
    {
      ghost var ops := record.Ops();
      var table := record.opcodeRecord;
      table[opcode] := table[opcode].(count := table[opcode].count + 1);

      var cycles: U64 := now - preTime.value;
      table[opcode] := table[opcode].(time := table[opcode].time + cycles);
      preTime := Some(now);

      record.totalTime := now - startTime.value;

      if opcode == SLOAD {
        record.AddSloadOpcodeRecord(cyclesToMs(cycles));
      }

      record.isUpdated := true;
      CountedTotals(ops, opcode as nat, cycles);
    }

    /** `get_record`: hand out the record and return the recorder to its initial state. */
    method GetRecord() returns (r: OpcodeRecord)
      requires Valid()
      modifies this
      ensures r == old(record) && r.Valid()
      ensures r.Ops() == old(record.Ops()) && r.Sloads() == old(record.Sloads())
      ensures r.totalTime == old(record.totalTime) && r.NotEmpty() == old(record.NotEmpty())
      ensures Valid() && fresh(record) && fresh(record.opcodeRecord) && fresh(record.sloadOpcodeRecord)
      ensures record.Ops() == DEFAULT_OPS && record.Sloads() == DEFAULT_SLOADS
      ensures record.totalTime == 0 && !record.NotEmpty()
      ensures startTime.None? && preTime.None? && !started
      ensures TimesAccounted()
    {
      startTime := None;
      preTime := None;
      started := false;
      r := record;
      record := new OpcodeRecord();
      EmptyTotals(OPCODE_COUNT);
    }

    /** `record_gas`: add `gasUsed` to the gas of `opcode`, and to nothing else. */
    method RecordGas(opcode: U8, gasUsed: U64)
      requires Valid() && record.Ops()[opcode].gas + gasUsed <= I128_MAX
      modifies record.opcodeRecord
      ensures record.Ops() == old(record.Ops()[opcode := record.Ops()[opcode].(gas := record.Ops()[opcode].gas + gasUsed)])
      ensures old(TimesAccounted()) ==> TimesAccounted()
    {
      ghost var ops := record.Ops();
      var table := record.opcodeRecord;
      table[opcode] := table[opcode].(gas := table[opcode].gas + gasUsed);
      GasOnlyTotals(ops, opcode as nat, ops[opcode].gas + gasUsed);
    }
  }
}

/**
 * crates/utils/src/metric.rs holds the same recorder as crates/utils/src/instruction_metric.rs
 * under other names (`MetricRecoder`, thread-local `INSTANCE`), with the same operations.
 */
module Metric {
  import InstructionMetric

  type MetricRecorder = InstructionMetric.InstructionMetricRecorder
}
