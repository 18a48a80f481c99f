/**
 * The fetch-advance-dispatch loop of crates/interpreter/src/interpreter.rs.  The instruction
 * pointer is an index `pc` into the contract's bytecode; the per-opcode handler `eval` and
 * the host's `step` / `step_end` hooks are parameters; the cargo feature
 * `enable_opcode_metrics` is the constant `metrics`; clock readings are nanosecond
 * timestamps supplied by a `clock` function (the `k`-th reading of a run is `clock(k)`).
 */
module Interpreter {
  import opened Wrappers
  import opened Types

  const STACK_LIMIT: U64 := 1024
  const CALL_STACK_LIMIT: U64 := 1024
  /** Contract code size limit of EIP-170. */
  const MAX_CODE_SIZE: nat := 0x6000
  /** Initcode size limit of EIP-3860. */
  const MAX_INITCODE_SIZE: nat := 2 * MAX_CODE_SIZE
  /** `usize::MAX` on a 64-bit target, the "no output" start of a return range. */
  const USIZE_MAX: nat := U64_MAX
  const STOP: U8 := 0x00

  /** The limits as numbers. */
  lemma LimitValues()
    ensures MAX_CODE_SIZE == 24576 && MAX_INITCODE_SIZE == 49152
    ensures STACK_LIMIT == CALL_STACK_LIMIT == 1024
  {
  }

  type Word = x: nat | x < 0x1_0000_0000_0000_0000_0000_0000_0000_0000_0000_0000_0000_0000_0000_0000_0000_0000

  /** Whether to go on with the next instruction; every other outcome ends the execution. */
  datatype InstructionResult = Continue | Halt(reason: nat)

  datatype Gas = Gas(limit: U64, remaining: U64)

  datatype Range = Range(start: nat, end: nat)

  datatype Contract = Contract(bytecode: seq<U8>)

  /** Code that can be run: after analysis its last byte is STOP. */
  predicate EndsWithStop(code: seq<U8>) {
    |code| > 0 && code[|code| - 1] == STOP
  }

  /** What an instruction handler sees and changes of the interpreter. */
  datatype Frame = Frame(pc: nat, result: InstructionResult, gas: Gas, memory: seq<U8>,
                         stack: seq<Word>, returnDataBuffer: seq<U8>, returnRange: Range)

  /** The outcome of one instruction: the new frame and host, and the gas it used and refunded. */
  datatype Dispatch<H> = Dispatch(frame: Frame, host: H, gasUsed: U64, gasRefund: I64)

  /** `eval(opcode, interpreter, host, ...)`, given the frame with `pc` already past the opcode. */
  type Eval<!H> = (U8, Contract, bool, Frame, H) -> Dispatch<H>

  /** `host.step(interpreter, is_static)`; it may stop the execution by returning something else than `Continue`. */
  type StepHook<!H> = (Frame, bool, H) -> (H, InstructionResult)

  /** `host.step_end(interpreter, is_static, result)`. */
  type StepEndHook<!H> = (Frame, bool, InstructionResult, H) -> (H, InstructionResult)

  /**
   * The promise the bytecode analysis and the handlers make together, about the opcode `op`
   * that `step` has just moved past (the frame's cursor is on the byte after it): STOP halts,
   * and an instruction that lets execution continue either leaves the cursor no further than
   * the byte after it (straight-line code, backward jumps) or puts it on a byte of the code
   * (forward jumps, PUSH data, which the analysis pads).
   */
  ghost predicate HandlersRespectPadding<H(!new)>(eval: Eval<H>, contract: Contract) {
    forall op: U8, isStatic: bool, f: Frame, h: H {:trigger eval(op, contract, isStatic, f, h)} ::
      1 <= f.pc <= |contract.bytecode| && op == contract.bytecode[f.pc - 1] ==>
        && (op == STOP ==> eval(op, contract, isStatic, f, h).frame.result != Continue)
        && (eval(op, contract, isStatic, f, h).frame.result == Continue ==>
              eval(op, contract, isStatic, f, h).frame.pc <= f.pc
              || eval(op, contract, isStatic, f, h).frame.pc < |contract.bytecode|)
  }

  /** The parts of an interpreter that never change while it runs. */
  datatype Setup = Setup(contract: Contract, isStatic: bool, metrics: bool, enableMetricRecord: bool)

  /** An interpreter state as a value: the frame, the host, and the metric part. */
  datatype State<H> = State(frame: Frame, host: H, ops: seq<OpcodeStat>, isUpdated: bool, preTime: Option<nat>)

  predicate CanContinue<H>(cfg: Setup, s: State<H>) {
    s.frame.result == Continue ==> s.frame.pc < |cfg.contract.bytecode|
  }

  /** The dispatch of the instruction at the cursor. */
  function DispatchAt<H>(cfg: Setup, eval: Eval<H>, s: State<H>): Dispatch<H>
    requires s.frame.pc < |cfg.contract.bytecode|
  {
    eval(cfg.contract.bytecode[s.frame.pc], cfg.contract, cfg.isStatic, s.frame.(pc := s.frame.pc + 1), s.host)
  }

  /** The gas column must stay within i128 after adding the used gas and after adding the refund. */
  predicate GasFits(gas: I128, gasUsed: U64, gasRefund: I64) {
    && gas + gasUsed <= I128_MAX
    && (gasRefund != 0 ==> I128_MIN <= gas + gasUsed + gasRefund <= I128_MAX)
  }

  /** The metric counters of the step of `op` at clock reading `now` do not overflow. */
  predicate MeterFits(cfg: Setup, ops: seq<OpcodeStat>, preTime: Option<nat>, op: U8, gasUsed: U64, gasRefund: I64, now: nat) {
    && |ops| == OPCODE_COUNT
    && (cfg.metrics ==> GasFits(ops[op].gas, gasUsed, gasRefund))
    && (cfg.metrics && cfg.enableMetricRecord ==>
          preTime.Some? && preTime.value <= now && CanCount(ops[op], now - preTime.value))
  }

  /** The opcode table after the step of `op` at clock reading `now`. */
  function MeteredOps(cfg: Setup, ops: seq<OpcodeStat>, preTime: Option<nat>, op: U8, gasUsed: U64, gasRefund: I64, now: nat): seq<OpcodeStat>
    requires MeterFits(cfg, ops, preTime, op, gasUsed, gasRefund, now)
  {
    var charged := if cfg.metrics then ops[op := ops[op].(gas := ops[op].gas + gasUsed + gasRefund)] else ops;
    if cfg.metrics && cfg.enableMetricRecord then charged[op := Counted(charged[op], now - preTime.value)] else charged
  }

  /** One step at clock reading `now` reads a byte of the code and overflows no counter. */
  predicate StepFits<H>(cfg: Setup, eval: Eval<H>, s: State<H>, now: nat) {
    && s.frame.pc < |cfg.contract.bytecode|
    && var d := DispatchAt(cfg, eval, s);
       MeterFits(cfg, s.ops, s.preTime, cfg.contract.bytecode[s.frame.pc], d.gasUsed, d.gasRefund, now)
  }

  /** The state after `step` at clock reading `now`. */
  function StepSpec<H>(cfg: Setup, eval: Eval<H>, s: State<H>, now: nat): State<H>
    requires StepFits(cfg, eval, s, now)
  {
    var d := DispatchAt(cfg, eval, s);
    var recording := cfg.metrics && cfg.enableMetricRecord;
    State(d.frame, d.host,
          MeteredOps(cfg, s.ops, s.preTime, cfg.contract.bytecode[s.frame.pc], d.gasUsed, d.gasRefund, now),
          s.isUpdated || recording,
          if recording then Some(now) else s.preTime)
  }

  /** A run from `s` with at most `fuel` steps, the `i`-th of them at `clock(k + i)`, never fails. */
  predicate ExecFits<H>(cfg: Setup, eval: Eval<H>, s: State<H>, fuel: nat, clock: nat -> nat, k: nat)
    decreases fuel
  {
    s.frame.result != Continue || fuel == 0 ||
    (StepFits(cfg, eval, s, clock(k)) && ExecFits(cfg, eval, StepSpec(cfg, eval, s, clock(k)), fuel - 1, clock, k + 1))
  }

  /** The state after stepping while the result is `Continue`, for at most `fuel` steps. */
  function Exec<H>(cfg: Setup, eval: Eval<H>, s: State<H>, fuel: nat, clock: nat -> nat, k: nat): State<H>
    requires ExecFits(cfg, eval, s, fuel, clock, k)
    decreases fuel
  {
    if s.frame.result != Continue || fuel == 0 then s
    else Exec(cfg, eval, StepSpec(cfg, eval, s, clock(k)), fuel - 1, clock, k + 1)
  }

  /** The number of steps `Exec` takes. */
  function Steps<H>(cfg: Setup, eval: Eval<H>, s: State<H>, fuel: nat, clock: nat -> nat, k: nat): (n: nat)
    requires ExecFits(cfg, eval, s, fuel, clock, k)
    ensures n <= fuel
    decreases fuel
  {
    if s.frame.result != Continue || fuel == 0 then 0
    else 1 + Steps(cfg, eval, StepSpec(cfg, eval, s, clock(k)), fuel - 1, clock, k + 1)
  }

  /** How a run ends: with a result other than `Continue`, or by running out of fuel. */
  datatype RunOutcome = Halted(result: InstructionResult) | OutOfFuel

  function Conclude(r: InstructionResult): (o: RunOutcome)
    ensures o.Halted? <==> r != Continue
    ensures o.Halted? ==> o.result == r
  {
    if r == Continue then OutOfFuel else Halted(r)
  }

  /** The state `run` starts its loop from: with metrics on, both clocks are set to the first reading. */
  function RunStart<H>(cfg: Setup, s: State<H>, now: nat): State<H> {
    if cfg.metrics then s.(preTime := Some(now)) else s
  }

  /**
   * One step executes the opcode at the cursor.  Only that opcode's entry of the table
   * changes: its gas grows by the used gas plus the refund (metrics on), and its count by one
   * and its time by the time since the previous reading (metric recording on), when also the
   * record becomes updated and the previous reading moves to `now`.
   */
  lemma StepTouchesOnlyItsOpcode<H>(cfg: Setup, eval: Eval<H>, s: State<H>, now: nat)
    requires StepFits(cfg, eval, s, now)
    ensures var op := cfg.contract.bytecode[s.frame.pc];
            var d := DispatchAt(cfg, eval, s);
            var t := StepSpec(cfg, eval, s, now);
            && t.frame == d.frame && t.host == d.host && |t.ops| == OPCODE_COUNT
            && (forall j :: 0 <= j < OPCODE_COUNT && j != op as int ==> t.ops[j] == s.ops[j])
            && t.ops[op].gas == s.ops[op].gas + (if cfg.metrics then d.gasUsed + d.gasRefund else 0)
            && t.ops[op].count == s.ops[op].count + (if cfg.metrics && cfg.enableMetricRecord then 1 else 0)
            && t.ops[op].time == s.ops[op].time + (if cfg.metrics && cfg.enableMetricRecord then now - s.preTime.value else 0)
            && (cfg.metrics && cfg.enableMetricRecord ==> t.isUpdated && t.preTime == Some(now))
            && (!(cfg.metrics && cfg.enableMetricRecord) ==> t.isUpdated == s.isUpdated && t.preTime == s.preTime)
  {
  }

  /**
   * The padding argument: when the code ends in STOP and the handlers respect the padding,
   * a step never leaves a continuing interpreter with its cursor past the code.  The STOP at
   * the end is what stops an instruction on the last byte from running off the code.
   */
  lemma StepKeepsCursorInCode<H(!new)>(cfg: Setup, eval: Eval<H>, s: State<H>, now: nat)
    requires EndsWithStop(cfg.contract.bytecode) && HandlersRespectPadding(eval, cfg.contract)
    requires StepFits(cfg, eval, s, now)
    ensures CanContinue(cfg, StepSpec(cfg, eval, s, now))
  {
    var f := s.frame.(pc := s.frame.pc + 1);
    var op := cfg.contract.bytecode[s.frame.pc];
    assert 1 <= f.pc <= |cfg.contract.bytecode| && op == cfg.contract.bytecode[f.pc - 1];
  }

  /**
   * A handler that halts on STOP and lets every other opcode continue in place, on the code
   * `[0x01, 0x00]`, respects the padding: the premise above is met by ordinary handlers.
   */
  lemma StraightLineHandlerRespectsPadding()
    ensures var eval: Eval<int> := (op: U8, c: Contract, b: bool, f: Frame, h: int) =>
              Dispatch(f.(result := if op == STOP then Halt(0) else Continue), h, 0, 0);
            EndsWithStop([0x01, 0x00]) && HandlersRespectPadding(eval, Contract([0x01, 0x00]))
  {
    var eval: Eval<int> := (op: U8, c: Contract, b: bool, f: Frame, h: int) =>
      Dispatch(f.(result := if op == STOP then Halt(0) else Continue), h, 0, 0);
    var code: seq<U8> := [0x01, 0x00];
    forall op: U8, isStatic: bool, f: Frame, h: int |
      1 <= f.pc <= |code| && op == code[f.pc - 1]
      ensures op == STOP ==> eval(op, Contract(code), isStatic, f, h).frame.result != Continue
      ensures eval(op, Contract(code), isStatic, f, h).frame.result == Continue ==>
                eval(op, Contract(code), isStatic, f, h).frame.pc <= f.pc
    {
    }
  }

  /** Without the metrics feature nothing can overflow: on padded code a well-behaved handler runs for any fuel. */
  lemma {:induction false} NoMetricsAlwaysFits<H(!new)>(cfg: Setup, eval: Eval<H>, s: State<H>, fuel: nat, clock: nat -> nat, k: nat)
    requires !cfg.metrics && EndsWithStop(cfg.contract.bytecode) && HandlersRespectPadding(eval, cfg.contract)
    requires CanContinue(cfg, s) && |s.ops| == OPCODE_COUNT
    ensures ExecFits(cfg, eval, s, fuel, clock, k)
    decreases fuel
  {
    if s.frame.result == Continue && fuel > 0 {
      assert StepFits(cfg, eval, s, clock(k));
      StepKeepsCursorInCode(cfg, eval, s, clock(k));
      NoMetricsAlwaysFits(cfg, eval, StepSpec(cfg, eval, s, clock(k)), fuel - 1, clock, k + 1);
    }
  }

  /** A run stops at a result other than `Continue`, or after exactly `fuel` steps. */
  lemma {:induction false} ExecStopsOnlyWhenDone<H>(cfg: Setup, eval: Eval<H>, s: State<H>, fuel: nat, clock: nat -> nat, k: nat)
    requires ExecFits(cfg, eval, s, fuel, clock, k)
    ensures Exec(cfg, eval, s, fuel, clock, k).frame.result == Continue ==> Steps(cfg, eval, s, fuel, clock, k) == fuel
    decreases fuel
  {
    if s.frame.result == Continue && fuel > 0 {
      ExecStopsOnlyWhenDone(cfg, eval, StepSpec(cfg, eval, s, clock(k)), fuel - 1, clock, k + 1);
    }
  }

  /** Fuel beyond what a halted run needed changes nothing. */
  lemma {:induction false} MoreFuelSameRun<H>(cfg: Setup, eval: Eval<H>, s: State<H>, fuel: nat, extra: nat, clock: nat -> nat, k: nat)
    requires ExecFits(cfg, eval, s, fuel, clock, k)
    requires Exec(cfg, eval, s, fuel, clock, k).frame.result != Continue
    ensures ExecFits(cfg, eval, s, fuel + extra, clock, k)
    ensures Exec(cfg, eval, s, fuel + extra, clock, k) == Exec(cfg, eval, s, fuel, clock, k)
    ensures Steps(cfg, eval, s, fuel + extra, clock, k) == Steps(cfg, eval, s, fuel, clock, k)
    decreases fuel
  {
    if s.frame.result == Continue {
      MoreFuelSameRun(cfg, eval, StepSpec(cfg, eval, s, clock(k)), fuel - 1, extra, clock, k + 1);
    }
  }

  /**
   * With metric recording on, every step is counted once in the opcode table, and the
   * times in the table grow by exactly the time that passed between the first and the last
   * clock reading.
   */
  lemma {:induction false} ExecAccounts<H>(cfg: Setup, eval: Eval<H>, s: State<H>, fuel: nat, clock: nat -> nat, k: nat)
    requires cfg.metrics && cfg.enableMetricRecord && |s.ops| == OPCODE_COUNT && s.preTime.Some?
    requires ExecFits(cfg, eval, s, fuel, clock, k)
    ensures var t := Exec(cfg, eval, s, fuel, clock, k);
            && t.preTime.Some? && s.preTime.value <= t.preTime.value && |t.ops| == OPCODE_COUNT
            && TotalCount(t.ops) == TotalCount(s.ops) + Steps(cfg, eval, s, fuel, clock, k)
            && TimeSum(t.ops) == TimeSum(s.ops) + (t.preTime.value - s.preTime.value)
    decreases fuel
  {
    if s.frame.result == Continue && fuel > 0 {
      StepAccounts(cfg, eval, s, clock(k));
      ExecAccounts(cfg, eval, StepSpec(cfg, eval, s, clock(k)), fuel - 1, clock, k + 1);
    }
  }

  /**
   * With metric recording on, one step adds one execution and the time since the previous
   * reading to the table, and moves the previous reading to `now`.
   */
  lemma StepAccounts<H>(cfg: Setup, eval: Eval<H>, s: State<H>, now: nat)
    requires cfg.metrics && cfg.enableMetricRecord && StepFits(cfg, eval, s, now)
    ensures var t := StepSpec(cfg, eval, s, now);
            && t.preTime == Some(now) && s.preTime.value <= now && |t.ops| == OPCODE_COUNT
            && TotalCount(t.ops) == TotalCount(s.ops) + 1
            && TimeSum(t.ops) == TimeSum(s.ops) + (now - s.preTime.value)
  {
    var op := cfg.contract.bytecode[s.frame.pc];
    var d := DispatchAt(cfg, eval, s);
    var metered := s.ops[op := s.ops[op].(gas := s.ops[op].gas + d.gasUsed + d.gasRefund)];
    GasOnlyTotals(s.ops, op as nat, s.ops[op].gas + d.gasUsed + d.gasRefund);
    CountedTotals(metered, op as nat, now - s.preTime.value);
  }

  /**
   * Midway through a run: from state `cur`, with `rem` steps and clock index `tick` left, the
   * run ends in `final` after `total - n` more steps.
   */
  ghost predicate Midway<H>(cfg: Setup, eval: Eval<H>, clock: nat -> nat, cur: State<H>, rem: nat, tick: nat,
                            n: nat, final: State<H>, total: nat)
  {
    && ExecFits(cfg, eval, cur, rem, clock, tick)
    && Exec(cfg, eval, cur, rem, clock, tick) == final
    && total == n + Steps(cfg, eval, cur, rem, clock, tick)
  }

  /** From midway, one more step of a run that goes on. */
  lemma ExecAdvance<H>(cfg: Setup, eval: Eval<H>, clock: nat -> nat, cur: State<H>, rem: nat, tick: nat,
                       n: nat, final: State<H>, total: nat)
    requires Midway(cfg, eval, clock, cur, rem, tick, n, final, total)
    requires cur.frame.result == Continue && rem > 0
    ensures StepFits(cfg, eval, cur, clock(tick))
    ensures Midway(cfg, eval, clock, StepSpec(cfg, eval, cur, clock(tick)), rem - 1, tick + 1, n + 1, final, total)
  {
  }

  /** From midway, a run that does not go on has ended. */
  lemma ExecFinish<H>(cfg: Setup, eval: Eval<H>, clock: nat -> nat, cur: State<H>, rem: nat, tick: nat,
                      n: nat, final: State<H>, total: nat)
    requires Midway(cfg, eval, clock, cur, rem, tick, n, final, total)
    requires cur.frame.result != Continue || rem == 0
    ensures final == cur && total == n
  {
  }

  /** `run_inspect` as a value: the state it stops in and what it returns. */
  datatype Inspection<H> = Inspection(state: State<H>, outcome: RunOutcome)

  /** A run of `run_inspect` from `s` with at most `fuel` steps never fails. */
  predicate InspectFits<H>(cfg: Setup, eval: Eval<H>, onStep: StepHook<H>, onStepEnd: StepEndHook<H>,
                           s: State<H>, fuel: nat, clock: nat -> nat, k: nat)
    decreases fuel
  {
    s.frame.result != Continue || fuel == 0 ||
    var (h1, ret) := onStep(s.frame, cfg.isStatic, s.host);
    ret != Continue ||
    (StepFits(cfg, eval, s.(host := h1), clock(k)) &&
     var s2 := StepSpec(cfg, eval, s.(host := h1), clock(k));
     var (h3, ret2) := onStepEnd(s2.frame, cfg.isStatic, s2.frame.result, s2.host);
     ret2 != Continue || InspectFits(cfg, eval, onStep, onStepEnd, s2.(host := h3), fuel - 1, clock, k + 1))
  }

  /**
   * `run_inspect`: before each step the host may stop the run, and then the step is not
   * executed; after each step it may stop the run with its own result.
   */
  function Inspect<H>(cfg: Setup, eval: Eval<H>, onStep: StepHook<H>, onStepEnd: StepEndHook<H>,
                      s: State<H>, fuel: nat, clock: nat -> nat, k: nat): Inspection<H>
    requires InspectFits(cfg, eval, onStep, onStepEnd, s, fuel, clock, k)
    decreases fuel
  {
    if s.frame.result != Continue then Inspection(s, Halted(s.frame.result))
    else if fuel == 0 then Inspection(s, OutOfFuel)
    else
      var (h1, ret) := onStep(s.frame, cfg.isStatic, s.host);
      if ret != Continue then Inspection(s.(host := h1), Halted(ret))
      else
        var s2 := StepSpec(cfg, eval, s.(host := h1), clock(k));
        var (h3, ret2) := onStepEnd(s2.frame, cfg.isStatic, s2.frame.result, s2.host);
        if ret2 != Continue then Inspection(s2.(host := h3), Halted(ret2))
        else Inspect(cfg, eval, onStep, onStepEnd, s2.(host := h3), fuel - 1, clock, k + 1)
  }

  /**
   * Midway through a `run_inspect`: from state `cur`, with `rem` rounds and clock index `tick`
   * left, the run returns `final`.
   */
  ghost predicate InspectMidway<H>(cfg: Setup, eval: Eval<H>, onStep: StepHook<H>, onStepEnd: StepEndHook<H>,
                                   clock: nat -> nat, cur: State<H>, rem: nat, tick: nat, final: Inspection<H>)
  {
    && InspectFits(cfg, eval, onStep, onStepEnd, cur, rem, clock, tick)
    && Inspect(cfg, eval, onStep, onStepEnd, cur, rem, clock, tick) == final
  }

  /**
   * From midway, the `step` hook's answer `(h1, ret)`: a result other than `Continue` ends the
   * run there with the hook's host; otherwise the step fits.
   */
  lemma InspectBeforeStep<H>(cfg: Setup, eval: Eval<H>, onStep: StepHook<H>, onStepEnd: StepEndHook<H>,
                             clock: nat -> nat, cur: State<H>, rem: nat, tick: nat, final: Inspection<H>,
                             h1: H, ret: InstructionResult)
    requires InspectMidway(cfg, eval, onStep, onStepEnd, clock, cur, rem, tick, final)
    requires cur.frame.result == Continue && rem > 0 && onStep(cur.frame, cfg.isStatic, cur.host) == (h1, ret)
    ensures ret != Continue ==> final == Inspection(cur.(host := h1), Halted(ret))
    ensures ret == Continue ==> StepFits(cfg, eval, cur.(host := h1), clock(tick))
  {
  }

  /**
   * From midway, after a step to `s2` and the `step_end` hook's answer `(h3, ret2)`: a result
   * other than `Continue` ends the run there; otherwise the run goes on from `s2` with `h3`.
   */
  lemma InspectAfterStep<H>(cfg: Setup, eval: Eval<H>, onStep: StepHook<H>, onStepEnd: StepEndHook<H>,
                            clock: nat -> nat, cur: State<H>, rem: nat, tick: nat, final: Inspection<H>,
                            h1: H, s2: State<H>, h3: H, ret2: InstructionResult)
    requires InspectMidway(cfg, eval, onStep, onStepEnd, clock, cur, rem, tick, final)
    requires cur.frame.result == Continue && rem > 0 && onStep(cur.frame, cfg.isStatic, cur.host) == (h1, Continue)
    requires StepFits(cfg, eval, cur.(host := h1), clock(tick)) && s2 == StepSpec(cfg, eval, cur.(host := h1), clock(tick))
    requires onStepEnd(s2.frame, cfg.isStatic, s2.frame.result, s2.host) == (h3, ret2)
    ensures ret2 != Continue ==> final == Inspection(s2.(host := h3), Halted(ret2))
    ensures ret2 == Continue ==> InspectMidway(cfg, eval, onStep, onStepEnd, clock, s2.(host := h3), rem - 1, tick + 1, final)
  {
  }

  /** From midway, a run that does not go on returns where it stopped. */
  lemma InspectFinish<H>(cfg: Setup, eval: Eval<H>, onStep: StepHook<H>, onStepEnd: StepEndHook<H>,
                         clock: nat -> nat, cur: State<H>, rem: nat, tick: nat, final: Inspection<H>)
    requires InspectMidway(cfg, eval, onStep, onStepEnd, clock, cur, rem, tick, final)
    requires cur.frame.result != Continue || rem == 0
    ensures final == Inspection(cur, Conclude(cur.frame.result))
  {
  }

  /** `run_inspect` never returns `Continue`, whoever stops the run. */
  lemma {:induction false} InspectNeverReturnsContinue<H>(cfg: Setup, eval: Eval<H>, onStep: StepHook<H>, onStepEnd: StepEndHook<H>,
                                                        s: State<H>, fuel: nat, clock: nat -> nat, k: nat)
    requires InspectFits(cfg, eval, onStep, onStepEnd, s, fuel, clock, k)
    ensures Inspect(cfg, eval, onStep, onStepEnd, s, fuel, clock, k).outcome.Halted? ==>
            Inspect(cfg, eval, onStep, onStepEnd, s, fuel, clock, k).outcome.result != Continue
    decreases fuel
  {
    if s.frame.result == Continue && fuel > 0 {
      var (h1, ret) := onStep(s.frame, cfg.isStatic, s.host);
      if ret == Continue {
        var s2 := StepSpec(cfg, eval, s.(host := h1), clock(k));
        var (h3, ret2) := onStepEnd(s2.frame, cfg.isStatic, s2.frame.result, s2.host);
        if ret2 == Continue {
          InspectNeverReturnsContinue(cfg, eval, onStep, onStepEnd, s2.(host := h3), fuel - 1, clock, k + 1);
        }
      }
    }
  }

  /** A host hook that lets every step through and leaves the host as it is. */
  ghost predicate Transparent<H(!new)>(onStep: StepHook<H>, onStepEnd: StepEndHook<H>) {
    && (forall f: Frame, b: bool, h: H {:trigger onStep(f, b, h)} :: onStep(f, b, h) == (h, Continue))
    && (forall f: Frame, b: bool, r: InstructionResult, h: H {:trigger onStepEnd(f, b, r, h)} :: onStepEnd(f, b, r, h) == (h, Continue))
  }

  /** With a host that lets everything through, `run_inspect` is `run`'s loop. */
  lemma {:induction false} TransparentInspectIsExec<H(!new)>(cfg: Setup, eval: Eval<H>, onStep: StepHook<H>, onStepEnd: StepEndHook<H>,
                                                      s: State<H>, fuel: nat, clock: nat -> nat, k: nat)
    requires Transparent(onStep, onStepEnd)
    ensures InspectFits(cfg, eval, onStep, onStepEnd, s, fuel, clock, k) <==> ExecFits(cfg, eval, s, fuel, clock, k)
    ensures ExecFits(cfg, eval, s, fuel, clock, k) ==>
            Inspect(cfg, eval, onStep, onStepEnd, s, fuel, clock, k)
            == Inspection(Exec(cfg, eval, s, fuel, clock, k), Conclude(Exec(cfg, eval, s, fuel, clock, k).frame.result))
    decreases fuel
  {
    if s.frame.result == Continue && fuel > 0 {
      assert onStep(s.frame, cfg.isStatic, s.host) == (s.host, Continue);
      assert s.(host := s.host) == s;
      if StepFits(cfg, eval, s, clock(k)) {
        var s2 := StepSpec(cfg, eval, s, clock(k));
        assert onStepEnd(s2.frame, cfg.isStatic, s2.frame.result, s2.host) == (s2.host, Continue);
        assert s2.(host := s2.host) == s2;
        TransparentInspectIsExec(cfg, eval, onStep, onStepEnd, s2, fuel - 1, clock, k + 1);
      }
    }
  }

  /** The interpreter. */
  class Interpreter {
    const contract: Contract
    /** The instruction pointer, as an offset into the bytecode. */
    var pc: nat
    var instructionResult: InstructionResult
    var gas: Gas
    var memory: seq<U8>
    var stack: seq<Word>
    var returnDataBuffer: seq<U8>
    var returnRange: Range
    const isStatic: bool
    /** Whether the crate is built with the `enable_opcode_metrics` feature. */
    const metrics: bool
    const opcodeRecord: OpcodeRecord
    var startTime: Option<nat>
    var preTime: Option<nat>
    const enableMetricRecord: bool

    ghost predicate Valid()
      reads this, opcodeRecord
    {
      EndsWithStop(contract.bytecode) && opcodeRecord.Valid()
    }

    function Config(): Setup {
      Setup(contract, isStatic, metrics, enableMetricRecord)
    }

    function CurrentFrame(): Frame
      reads this
    {
      Frame(pc, instructionResult, gas, memory, stack, returnDataBuffer, returnRange)
    }

    function Snapshot<H>(host: H): State<H>
      reads this, opcodeRecord, opcodeRecord.opcodeRecord
    {
      State(CurrentFrame(), host, opcodeRecord.Ops(), opcodeRecord.isUpdated, preTime)
    }

    /**
     * `Interpreter::new`: the cursor on the first byte, `Continue`, an empty memory, stack
     * and return data buffer, the default return range and the whole gas limit left; with
     * metrics, a default record and no clock readings.
     */
    constructor New(contract: Contract, gasLimit: U64, isStatic: bool, metrics: bool, enableMetricRecord: bool)
      requires EndsWithStop(contract.bytecode)
      ensures Valid() && fresh(opcodeRecord) && fresh(opcodeRecord.opcodeRecord) && fresh(opcodeRecord.sloadOpcodeRecord)
      ensures this.contract == contract && this.isStatic == isStatic
      ensures this.metrics == metrics && this.enableMetricRecord == enableMetricRecord
      ensures pc == 0 && instructionResult == Continue && gas == Gas(gasLimit, gasLimit)
      ensures memory == [] && stack == [] && returnDataBuffer == [] && returnRange == Range(0, 0)
      ensures opcodeRecord.Ops() == DEFAULT_OPS && opcodeRecord.Sloads() == DEFAULT_SLOADS
      ensures opcodeRecord.totalTime == 0 && !opcodeRecord.NotEmpty()
      ensures startTime.None? && preTime.None?
    {
      this.contract := contract;
      pc := 0;
      returnRange := Range(0, 0);
      memory := [];
      stack := [];
      returnDataBuffer := [];
      instructionResult := Continue;
      this.isStatic := isStatic;
      gas := Gas(gasLimit, gasLimit);
      this.metrics := metrics;
      opcodeRecord := new OpcodeRecord();
      startTime, preTime := None, None;
      this.enableMetricRecord := enableMetricRecord;
    }

    /** `current_opcode`: the byte under the cursor; on the last byte, STOP. */
    function CurrentOpcode(): (op: U8)
      reads this
      requires pc < |contract.bytecode|
      ensures op == contract.bytecode[pc]
      ensures EndsWithStop(contract.bytecode) && pc == |contract.bytecode| - 1 ==> op == STOP
    {
      contract.bytecode[pc]
    }

    /** `program_counter`: the offset of the cursor from the start of the bytecode. */
    function ProgramCounter(): (offset: nat)
      reads this
      ensures offset == pc
      ensures offset < |contract.bytecode| ==> CurrentOpcode() == contract.bytecode[offset]
    {
      pc
    }

    /**
     * `return_value`: nothing when the range starts at `usize::MAX`, otherwise a copy of the
     * memory bytes of the range.
     */
    function ReturnValue(): (r: seq<U8>)
      reads this
      requires returnRange.start != USIZE_MAX ==> returnRange.start <= returnRange.end <= |memory|
      ensures returnRange.start == USIZE_MAX ==> r == []
      ensures returnRange.start != USIZE_MAX ==>
                && |r| == returnRange.end - returnRange.start
                && forall i :: 0 <= i < |r| ==> r[i] == memory[returnRange.start + i]
    {
      if returnRange.start == USIZE_MAX then [] else memory[returnRange.start..returnRange.end]
    }

    /**
     * `step` at clock reading `now`: read the opcode at the cursor, move the cursor past it,
     * and dispatch; with metrics, charge the opcode's gas and, with metric recording, count
     * and time it.
     */
    method Step<H>(eval: Eval<H>, host: H, now: nat) returns (hostOut: H)
      requires Valid() && StepFits(Config(), eval, Snapshot(host), now)
      modifies this, opcodeRecord, opcodeRecord.opcodeRecord
      ensures Valid() && Snapshot(hostOut) == StepSpec(Config(), eval, old(Snapshot(host)), now)
      ensures opcodeRecord.opcodeRecord == old(opcodeRecord.opcodeRecord)
      ensures opcodeRecord.sloadOpcodeRecord == old(opcodeRecord.sloadOpcodeRecord)
      ensures opcodeRecord.totalTime == old(opcodeRecord.totalTime) && startTime == old(startTime)
      ensures var d := eval(old(CurrentOpcode()), contract, isStatic, old(CurrentFrame()).(pc := old(ProgramCounter()) + 1), host);
              CurrentFrame() == d.frame && hostOut == d.host
    {
      var opcode := contract.bytecode[pc];
      pc := pc + 1;

      var d := eval(opcode, contract, isStatic, CurrentFrame(), host);
      RecordOpcodeMetrics(opcode, d.gasUsed, d.gasRefund, now);
      pc, instructionResult, gas, memory := d.frame.pc, d.frame.result, d.frame.gas, d.frame.memory;
      stack, returnDataBuffer, returnRange := d.frame.stack, d.frame.returnDataBuffer, d.frame.returnRange;
      hostOut := d.host;
    }

    /**
     * The metric part of `step`: charge the gas used and the refund to `opcode`, and with
     * metric recording count it, add the time since the previous reading, mark the record
     * updated and move the previous reading to `now`.
     */
    method RecordOpcodeMetrics(opcode: U8, gasUsed: U64, gasRefund: I64, now: nat)
      requires Valid() && MeterFits(Config(), opcodeRecord.Ops(), preTime, opcode, gasUsed, gasRefund, now)
      modifies this, opcodeRecord, opcodeRecord.opcodeRecord
      ensures Valid() && CurrentFrame() == old(CurrentFrame()) && startTime == old(startTime)
      ensures opcodeRecord.opcodeRecord == old(opcodeRecord.opcodeRecord)
      ensures opcodeRecord.sloadOpcodeRecord == old(opcodeRecord.sloadOpcodeRecord)
      ensures opcodeRecord.totalTime == old(opcodeRecord.totalTime)
      ensures opcodeRecord.Ops() == MeteredOps(Config(), old(opcodeRecord.Ops()), old(preTime), opcode, gasUsed, gasRefund, now)
      ensures opcodeRecord.NotEmpty() == (old(opcodeRecord.NotEmpty()) || (metrics && enableMetricRecord))
      ensures preTime == if metrics && enableMetricRecord then Some(now) else old(preTime)
    {
      if metrics {
        var table := opcodeRecord.opcodeRecord;
        table[opcode] := table[opcode].(gas := table[opcode].gas + gasUsed);
        if gasRefund != 0 {
          table[opcode] := table[opcode].(gas := table[opcode].gas + gasRefund);
        }

        if enableMetricRecord {
          table[opcode] := table[opcode].(count := table[opcode].count + 1);
          var duration := now - preTime.value;
          table[opcode] := table[opcode].(time := table[opcode].time + duration);
          opcodeRecord.isUpdated := true;
          preTime := Some(now);
        }
      }
    }

    /**
     * `run`: step while the result is `Continue`, at most `fuel` times, the `i`-th step at
     * clock reading `clock(i)`; with metrics, the clocks start at `clock(0)` and the total
     * time is taken at the reading after the last step.
     */
    method Run<H>(eval: Eval<H>, host: H, clock: nat -> nat, fuel: nat) returns (outcome: RunOutcome, hostOut: H)
      requires Valid() && ExecFits(Config(), eval, RunStart(Config(), Snapshot(host), clock(0)), fuel, clock, 1)
      requires metrics ==>
                 var n := Steps(Config(), eval, RunStart(Config(), Snapshot(host), clock(0)), fuel, clock, 1);
                 clock(0) <= clock(n + 1) && clock(n + 1) - clock(0) <= U64_MAX
      modifies this, opcodeRecord, opcodeRecord.opcodeRecord
      ensures Valid()
      ensures Snapshot(hostOut) == Exec(Config(), eval, old(RunStart(Config(), Snapshot(host), clock(0))), fuel, clock, 1)
      ensures outcome == Conclude(instructionResult)
      ensures outcome.Halted? ==> outcome.result != Continue
      ensures metrics ==> startTime == Some(clock(0))
      ensures !metrics ==> startTime == old(startTime)
      ensures opcodeRecord.sloadOpcodeRecord == old(opcodeRecord.sloadOpcodeRecord)
      ensures metrics && outcome.Halted? ==>
                opcodeRecord.totalTime == clock(Steps(Config(), eval, old(RunStart(Config(), Snapshot(host), clock(0))), fuel, clock, 1) + 1) - clock(0)
      ensures !(metrics && outcome.Halted?) ==> opcodeRecord.totalTime == old(opcodeRecord.totalTime)
    {
      if metrics {
        var now := clock(0);
        startTime := Some(now);
        preTime := Some(now);
      }
      var n;
      hostOut, n := StepWhileContinue(eval, host, clock, fuel, 1);
      outcome := Conclude(instructionResult);

      if metrics && instructionResult != Continue {
        var now := clock(n + 1);
        opcodeRecord.totalTime := now - startTime.value;
      }
    }

    /**
     * The loop of `run`: step while the result is `Continue`, at most `fuel` times, the
     * `i`-th step at clock reading `clock(k + i)`; `n` is the number of steps taken.
     */
    method StepWhileContinue<H>(eval: Eval<H>, host: H, clock: nat -> nat, fuel: nat, k: nat) returns (hostOut: H, n: nat)
      requires Valid() && ExecFits(Config(), eval, Snapshot(host), fuel, clock, k)
      modifies this, opcodeRecord, opcodeRecord.opcodeRecord
      ensures Valid() && Snapshot(hostOut) == Exec(Config(), eval, old(Snapshot(host)), fuel, clock, k)
      ensures n == Steps(Config(), eval, old(Snapshot(host)), fuel, clock, k)
      ensures opcodeRecord.opcodeRecord == old(opcodeRecord.opcodeRecord)
      ensures opcodeRecord.sloadOpcodeRecord == old(opcodeRecord.sloadOpcodeRecord)
      ensures opcodeRecord.totalTime == old(opcodeRecord.totalTime) && startTime == old(startTime)
    {
      ghost var cfg := Config();
      ghost var cur := Snapshot(host);
      ghost var final, total := Exec(cfg, eval, cur, fuel, clock, k), Steps(cfg, eval, cur, fuel, clock, k);
      hostOut := host;
      n := 0;
      var rem, tick := fuel, k;
      while instructionResult == Continue && rem > 0
        invariant Valid() && cur == Snapshot(hostOut)
        invariant opcodeRecord.opcodeRecord == old(opcodeRecord.opcodeRecord)
        invariant opcodeRecord.sloadOpcodeRecord == old(opcodeRecord.sloadOpcodeRecord)
        invariant opcodeRecord.totalTime == old(opcodeRecord.totalTime) && startTime == old(startTime)
        invariant Midway(cfg, eval, clock, cur, rem, tick, n, final, total)
      {
        ExecAdvance(cfg, eval, clock, cur, rem, tick, n, final, total);
        hostOut := Step(eval, hostOut, clock(tick));
        cur := StepSpec(cfg, eval, cur, clock(tick));
        rem, tick, n := rem - 1, tick + 1, n + 1;
      }
      ExecFinish(cfg, eval, clock, cur, rem, tick, n, final, total);
    }

    /**
     * `run_inspect`: like `run`, but the host's `step` hook is asked before each step and
     * its `step_end` hook after it, and either may end the run with its own result.
     */
    method RunInspect<H>(eval: Eval<H>, onStep: StepHook<H>, onStepEnd: StepEndHook<H>, host: H, clock: nat -> nat, fuel: nat)
      returns (outcome: RunOutcome, hostOut: H)
      requires Valid() && InspectFits(Config(), eval, onStep, onStepEnd, Snapshot(host), fuel, clock, 0)
      modifies this, opcodeRecord, opcodeRecord.opcodeRecord
      ensures Valid()
      ensures Inspection(Snapshot(hostOut), outcome) == Inspect(Config(), eval, onStep, onStepEnd, old(Snapshot(host)), fuel, clock, 0)
      ensures outcome.Halted? ==> outcome.result != Continue
      ensures opcodeRecord.sloadOpcodeRecord == old(opcodeRecord.sloadOpcodeRecord)
      ensures opcodeRecord.totalTime == old(opcodeRecord.totalTime) && startTime == old(startTime)
    {
      ghost var cfg := Config();
      ghost var cur := Snapshot(host);
      ghost var final := Inspect(cfg, eval, onStep, onStepEnd, cur, fuel, clock, 0);
      var h := host;
      var rem, tick := fuel, 0;
      while instructionResult == Continue && rem > 0
        invariant Valid() && cur == Snapshot(h)
        invariant opcodeRecord.opcodeRecord == old(opcodeRecord.opcodeRecord)
        invariant opcodeRecord.sloadOpcodeRecord == old(opcodeRecord.sloadOpcodeRecord)
        invariant opcodeRecord.totalTime == old(opcodeRecord.totalTime) && startTime == old(startTime)
        invariant InspectMidway(cfg, eval, onStep, onStepEnd, clock, cur, rem, tick, final)
      {
        var (h1, ret) := onStep(CurrentFrame(), isStatic, h);
        InspectBeforeStep(cfg, eval, onStep, onStepEnd, clock, cur, rem, tick, final, h1, ret);
        if ret != Continue {
          return Halted(ret), h1;
        }
        h := Step(eval, h1, clock(tick));
        ghost var s2 := Snapshot(h);

        var (h3, ret2) := onStepEnd(CurrentFrame(), isStatic, instructionResult, h);
        InspectAfterStep(cfg, eval, onStep, onStepEnd, clock, cur, rem, tick, final, h1, s2, h3, ret2);
        if ret2 != Continue {
          return Halted(ret2), h3;
        }
        h := h3;
        cur := s2.(host := h3);
        rem, tick := rem - 1, tick + 1;
      }
      InspectFinish(cfg, eval, onStep, onStepEnd, clock, cur, rem, tick, final);
      hostOut := h;
      outcome := Conclude(instructionResult);
    }
  }
}
