/** The sequencer one clock at a time: two fetch cycles, then execution for as long as
    DELAY and WAIT hold it. It sees only the pins of the present cycle, so a partner that
    reacts to the outputs can be put on the other side of the pins. */
module CycleCpu {
  import opened Bits
  import opened Isa
  import opened Machine
  import opened Runs

  /** `Execute(k)`: `k` extra cycles have passed in execution. */
  datatype Phase = FetchLo | FetchHi | Execute(k: nat)

  datatype Cpu = Cpu(s: State, phase: Phase)

  predicate Finished(i: Instr, k: nat, pins: Sample)
    requires InRange(i)
  {
    match i
    case Delay(mantissa, exponent) => k >= mantissa * Unit(exponent)
    case Wait(pin, level, mantissa, exponent) =>
      Bit(pins.uio, pin) == level || (mantissa != 0 && k >= mantissa * Unit(exponent))
    case _ => true
  }

  /** The pins never change. */
  function Steady(pins: Sample): Stimulus {
    t => pins
  }

  predicate FinishedAt(i: Instr, io: Stimulus, t: nat, k: nat)
    requires InRange(i)
  {
    Finished(i, k, io(t + k))
  }

  /** The architectural effect at the commit cycle. */
  function Commit(s: State, i: Instr, pins: Sample): (r: State)
    requires Valid(s) && InRange(i)
    ensures Valid(r)
  {
    if i.Wait? then Goto(WithFlag(s, Bit(pins.uio, i.pin) != i.level), (s.pc + 1) % 512)
    else Exec(s, i, Steady(pins), 0).state
  }

  function CpuClock(prog: Program, c: Cpu, pins: Sample): (r: Cpu)
    requires Valid(c.s)
    ensures Valid(r.s)
  {
    if c.s.halted then c
    else match c.phase
      case FetchLo => Cpu(c.s, FetchHi)
      case FetchHi => Cpu(c.s, Execute(0))
      case Execute(k) =>
        var i := Decode(Fetch(prog, c.s.pc));
        if Finished(i, k, pins) then Cpu(Commit(c.s, i, pins), FetchLo) else Cpu(c.s, Execute(k + 1))
  }

  /** `n` clocks from cycle `t` on. */
  function CpuRun(prog: Program, c: Cpu, io: Stimulus, t: nat, n: nat): (r: Cpu)
    requires Valid(c.s)
    ensures Valid(r.s)
    decreases n
  {
    if n == 0 then c else CpuRun(prog, CpuClock(prog, c, io(t)), io, t + 1, n - 1)
  }

  /** Extra cycles an instruction spends in execution, -1 if it is stuck in a WAIT. */
  function Extra(i: Instr, io: Stimulus, t: nat): int
    requires InRange(i)
  {
    if i.Wait? then WaitFrom(io, t, i, 0) else if i.Delay? then i.mantissa * Unit(i.exponent) else 0
  }

  /** Execution is held for exactly the extra cycles. */
  lemma ExtraExact(i: Instr, io: Stimulus, t: nat)
    requires InRange(i) && Extra(i, io, t) >= 0
    ensures FinishedAt(i, io, t, Extra(i, io, t))
    ensures forall k :: 0 <= k < Extra(i, io, t) ==> !FinishedAt(i, io, t, k)
  {
    if i.Wait? {
      var e := Extra(i, io, t);
      assert WaitDone(io, t, i, e);
      forall k | 0 <= k < e ensures !FinishedAt(i, io, t, k) {
        assert !WaitDone(io, t, i, k);
      }
    }
  }

  lemma {:induction false} Held(prog: Program, s: State, io: Stimulus, t: nat, i: Instr, k: nat, e: nat)
    requires Valid(s) && !s.halted && i == Decode(Fetch(prog, s.pc)) && k <= e
    requires forall j :: k <= j < e ==> !FinishedAt(i, io, t, j)
    requires FinishedAt(i, io, t, e)
    ensures CpuRun(prog, Cpu(s, Execute(k)), io, t + k, e - k + 1) == Cpu(Commit(s, i, io(t + e)), FetchLo)
    decreases e - k
  {
    hide Commit, Decode;
    var c := Cpu(s, Execute(k));
    if k < e {
      assert !FinishedAt(i, io, t, k);
      assert CpuClock(prog, c, io(t + k)) == Cpu(s, Execute(k + 1));
      Held(prog, s, io, t, i, k + 1, e);
    } else {
      var d := Cpu(Commit(s, i, io(t + e)), FetchLo);
      assert CpuClock(prog, c, io(t + e)) == d;
      assert CpuRun(prog, d, io, t + e + 1, 0) == d;
    }
  }

  /** What a step of the instruction-level machine is, in terms of the commit. */
  lemma StepIsCommit(s: State, i: Instr, io: Stimulus, t: nat)
    requires Valid(s) && InRange(i)
    ensures var e := Extra(i, io, t);
            if e < 0 then Exec(s, i, io, t) == Stuck
            else Exec(s, i, io, t) == Next(Commit(s, i, io(t + e)), 3 + e)
  {
    hide Commit, Exec, Extra;
    if IsData(i) {
      DataIsCommit(s, i, io, t);
    } else if i.Wait? {
      WaitIsCommit(s, i, io, t);
    } else {
      ControlIsCommit(s, i, io, t);
    }
  }

  lemma WaitIsCommit(s: State, i: Instr, io: Stimulus, t: nat)
    requires Valid(s) && InRange(i) && i.Wait?
    ensures var e := Extra(i, io, t);
            if e < 0 then Exec(s, i, io, t) == Stuck
            else Exec(s, i, io, t) == Next(Commit(s, i, io(t + e)), 3 + e)
  {
    hide DataEffect, WaitFrom, Goto, WithFlag;
  }

  lemma ControlIsCommit(s: State, i: Instr, io: Stimulus, t: nat)
    requires Valid(s) && InRange(i) && !i.Wait? && !IsData(i)
    ensures Extra(i, io, t) >= 0
    ensures Exec(s, i, io, t) == Next(Commit(s, i, io(t + Extra(i, io, t))), 3 + Extra(i, io, t))
  {
    hide DataEffect, Goto, Returned, Called, Taken, SetReg;
  }

  lemma DataIsCommit(s: State, i: Instr, io: Stimulus, t: nat)
    requires Valid(s) && InRange(i) && IsData(i)
    ensures Extra(i, io, t) == 0 && Exec(s, i, io, t) == Next(Commit(s, i, io(t)), 3)
  {
    ExecData(s, i, io, t);
    ExecData(s, i, Steady(io(t)), 0);
    hide Exec, DataEffect;
  }

  lemma ExecData(s: State, i: Instr, io: Stimulus, t: nat)
    requires Valid(s) && InRange(i) && IsData(i)
    ensures Exec(s, i, io, t) == Next(Goto(DataEffect(s, i, io(t)), (s.pc + 1) % 512), 3)
  {
    hide DataEffect, Goto;
  }

  /** The instruction-level model is exact: an instruction of `n` cycles takes the
      cycle machine from one fetch to the next in `n` clocks, on every stimulus. */
  lemma StepRefines(prog: Program, s: State, io: Stimulus, t: nat)
    requires Valid(s) && !s.halted
    ensures var r := Advance(prog, io, Config(s, t));
            r.Next? ==> CpuRun(prog, Cpu(s, FetchLo), io, t, r.cycles) == Cpu(r.state, FetchLo)
  {
    hide *;
    var i, e := Decode(Fetch(prog, s.pc)), Extra(Decode(Fetch(prog, s.pc)), io, t + 2);
    AdvanceExecutes(prog, s, io, t);
    StepIsCommit(s, i, io, t + 2);
    if e >= 0 {
      ExtraExact(i, io, t + 2);
      Held(prog, s, io, t + 2, i, 0, e);
      Fetched(prog, s, io, t, 3 + e);
    }
  }

  lemma AdvanceExecutes(prog: Program, s: State, io: Stimulus, t: nat)
    requires Valid(s)
    ensures Advance(prog, io, Config(s, t)) == Exec(s, Decode(Fetch(prog, s.pc)), io, t + 2)
  {
    hide Exec, Decode;
  }

  /** Two fetch cycles come before execution. */
  lemma Fetched(prog: Program, s: State, io: Stimulus, t: nat, n: nat)
    requires Valid(s) && !s.halted && n >= 2
    ensures CpuRun(prog, Cpu(s, FetchLo), io, t, n) == CpuRun(prog, Cpu(s, Execute(0)), io, t + 2, n - 2)
  {
    hide Commit, Decode;
    assert CpuRun(prog, Cpu(s, FetchLo), io, t, n) == CpuRun(prog, Cpu(s, FetchHi), io, t + 1, n - 1);
  }
}
