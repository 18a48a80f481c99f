/**
 * The opcode recorder of crates/utils/src/instrument.rs: one recorder (in Rust the
 * thread-local `INSTANCE`) that counts, times and meters opcode executions.  Clock readings
 * are nanosecond timestamps, passed as `now`; a duration is the difference of two of them.
 */
module Instrument {
  import opened Wrappers
  import opened Types

  /** The gas column must stay within i128 after adding the used gas and after taking off the refund. */
  predicate GasFits(gas: I128, gasUsed: U64, gasRefund: I64) {
    && gas + gasUsed <= I128_MAX
    && (gasRefund != 0 ==> I128_MIN <= gas + gasUsed - gasRefund <= I128_MAX)
  }

  /** The recorder: its record and the state of the clock. */
  class Instrument {
    var record: OpcodeRecord
    var startTime: Option<nat>
    var preTime: Option<nat>
    var started: bool
    /** The reading of the first `start_record` since the last reset. */
    ghost var origin: nat

    ghost predicate Valid()
      reads this, record
    {
      record.Valid()
    }

    /**
     * Before the start nothing has been timed; after it the times of all opcodes add up to
     * the time from the first `start_record` to the last recorded opcode.
     */
    ghost predicate TimesAccounted()
      reads this, record, record.opcodeRecord
    {
      && (!started ==> startTime.None? && preTime.None? && TimeSum(record.Ops()) == 0)
      && (started ==>
            && startTime.Some? && preTime.Some? && origin <= preTime.value
            && TimeSum(record.Ops()) == preTime.value - origin)
    }

    /** `Instrument::default()`. */
    constructor ()
      ensures Valid() && fresh(record) && fresh(record.opcodeRecord) && fresh(record.sloadOpcodeRecord)
      ensures record.Ops() == DEFAULT_OPS && record.Sloads() == DEFAULT_SLOADS
      ensures record.totalTime == 0 && !record.NotEmpty()
      ensures startTime.None? && preTime.None? && !started
      ensures TimesAccounted()
    {
      record := new OpcodeRecord();
      startTime, preTime, started := None, None, false;
      origin := 0;
      EmptyTotals(OPCODE_COUNT);
    }

    /** `start_record` at `now`: the start moves to `now` on every call, the previous reading only on the first. */
    method StartRecord(now: nat)
      modifies this
      ensures started && record == old(record) && startTime == Some(now)
      ensures preTime == if old(started) then old(preTime) else Some(now)
      ensures old(TimesAccounted()) ==> TimesAccounted()
    {
      startTime := Some(now);
      if !started {
        preTime := Some(now);
        origin := now;
      }
      started := true;
    }

    /**
     * `record(opcode, gas_used, gas_refund)` at `now`: one more execution of `opcode`, which
     * took the nanoseconds since the previous reading; an SLOAD's duration in whole
     * microseconds is counted in the SLOAD ladder; the gas of `opcode` grows by the used gas
     * less the refund.
     */
    method Record(opcode: U8, gasUsed: U64, gasRefund: I64, now: nat)
      requires Valid() && preTime.Some? && preTime.value <= now
      requires CanCount(record.Ops()[opcode], now - preTime.value)
      requires opcode == SLOAD ==> SloadRoom(record.Sloads(), (now - preTime.value) / 1000)
      requires GasFits(record.Ops()[opcode].gas, gasUsed, gasRefund)
      modifies this, record, record.opcodeRecord, record.sloadOpcodeRecord
      ensures Valid() && record == old(record)
      ensures record.opcodeRecord == old(record.opcodeRecord) && record.sloadOpcodeRecord == old(record.sloadOpcodeRecord)
      ensures record.Ops() == old(record.Ops()[opcode :=
                Counted(record.Ops()[opcode], now - preTime.value)
                .(gas := record.Ops()[opcode].gas + gasUsed - gasRefund)])
      ensures record.Sloads() == if opcode == SLOAD
                                 then old(SloadAdded(record.Sloads(), (now - preTime.value) / 1000))
                                 else old(record.Sloads())
      ensures preTime == Some(now) && startTime == old(startTime) && started == old(started)
      ensures record.totalTime == old(record.totalTime) && record.NotEmpty()
      ensures old(TimesAccounted()) ==> TimesAccounted()
    {
      ghost var ops := record.Ops();
      var duration: U64 := now - preTime.value;
      CountAndTime(opcode, duration);
      preTime := Some(now);

      if opcode == SLOAD {
        record.AddSloadOpcodeRecord(duration / 1000);
      }

      ChargeGas(opcode, gasUsed, gasRefund);
      record.isUpdated := true;
      CountedTotals(ops, opcode as nat, duration);
      GasOnlyTotals(ops[opcode := Counted(ops[opcode], duration)], opcode as nat, ops[opcode].gas + gasUsed - gasRefund);
      assert ops[opcode := Counted(ops[opcode], duration)][opcode := Counted(ops[opcode], duration).(gas := ops[opcode].gas + gasUsed - gasRefund)]
          == ops[opcode := Counted(ops[opcode], duration).(gas := ops[opcode].gas + gasUsed - gasRefund)];
    }

    /** The first part of `record`: one more execution of `opcode`, which took `duration`. */
    method CountAndTime(opcode: U8, duration: U64)
      requires Valid() && CanCount(record.Ops()[opcode], duration)
      modifies record.opcodeRecord
      ensures record.Ops() == old(record.Ops()[opcode := Counted(record.Ops()[opcode], duration)])
    {
      var table := record.opcodeRecord;
      table[opcode] := table[opcode].(count := table[opcode].count + 1);
      table[opcode] := table[opcode].(time := table[opcode].time + duration);
    }

    /** The gas part of `record`: the gas of `opcode` grows by `gasUsed` less `gasRefund`. */
    method ChargeGas(opcode: U8, gasUsed: U64, gasRefund: I64)
      requires Valid() && GasFits(record.Ops()[opcode].gas, gasUsed, gasRefund)
      modifies record.opcodeRecord
      ensures record.Ops() == old(record.Ops()[opcode := record.Ops()[opcode].(gas := record.Ops()[opcode].gas + gasUsed - gasRefund)])
    {
      var table := record.opcodeRecord;
      table[opcode] := table[opcode].(gas := table[opcode].gas + gasUsed);
      if gasRefund != 0 {
        table[opcode] := table[opcode].(gas := table[opcode].gas - gasRefund);
      }
    }

    /** `end_record` at `now`: the total time becomes the nanoseconds since the (last) start. */
    method EndRecord(now: nat)
      requires Valid() && startTime.Some? && startTime.value <= now && now - startTime.value <= U64_MAX
      modifies record
      ensures record.totalTime == now - startTime.value
      ensures record.opcodeRecord == old(record.opcodeRecord) && record.sloadOpcodeRecord == old(record.sloadOpcodeRecord)
      ensures record.NotEmpty() == old(record.NotEmpty())
      ensures old(TimesAccounted()) ==> TimesAccounted()
    {
      record.totalTime := now - startTime.value;
    }

    /** `get_record`: hand out the record and return the recorder to its initial state. */
    method GetRecord() returns (r: OpcodeRecord)
      requires Valid()
      modifies this
      ensures r == old(record) && r.Valid()
      ensures r.Ops() == old(record.Ops()) && r.Sloads() == old(record.Sloads())
      ensures r.totalTime == old(record.totalTime) && r.NotEmpty() == old(record.NotEmpty())
      ensures Valid() && fresh(record) && fresh(record.opcodeRecord) && fresh(record.sloadOpcodeRecord)
      ensures record.Ops() == DEFAULT_OPS && record.Sloads() == DEFAULT_SLOADS
      ensures record.totalTime == 0 && !record.NotEmpty()
      ensures startTime.None? && preTime.None? && !started
      ensures TimesAccounted()
    {
      startTime := None;
      preTime := None;
      started := false;
      r := record;
      record := new OpcodeRecord();
      EmptyTotals(OPCODE_COUNT);
    }
  }
}
