/** Handshake firmware: loops of waits, captures and acknowledges, compiled to words,
    and an automaton that the cycle machine running those words follows exactly. */
module Firmware {
  import opened Bits
  import opened Isa
  import opened Machine
  import opened Runs
  import opened CycleCpu

  const HOST_GO: nat := 4
  const HOST_STATUS: nat := 5

  /** The instructions the handshake idioms use, on R0. */
  datatype Op = AwaitGo(level: Level) | Capture | Present | Status(level: Level) | Jump(target: nat)

  function ToInstr(op: Op): Instr {
    match op
    case AwaitGo(level) => Wait(HOST_GO, level, 0, 0)
    case Capture => In(0)
    case Present => Out(0)
    case Status(level) => SetPin(SET_MODE_LEAVE, HOST_STATUS, level)
    case Jump(target) => Branch(COND_JMP, target)
  }

  /** A program that never runs off its end. */
  predicate Looping(ops: seq<Op>) {
    && 0 < |ops| <= 256 && ops[|ops| - 1].Jump?
    && forall k :: 0 <= k < |ops| && ops[k].Jump? ==> ops[k].target < |ops|
  }

  function Words(ops: seq<Op>): (w: Program)
    ensures |w| == |ops|
  {
    seq(|ops|, k requires 0 <= k < |ops| => Encode(ToInstr(ops[k])))
  }

  /** The program memory begins with the compiled words. */
  predicate Holds(prog: Program, ops: seq<Op>) {
    |ops| <= |prog| && prog[..|ops|] == Words(ops)
  }

  /** What the host can tell of the firmware, and R0. `phase` is 0 and 1 while
      fetching and 2 in execution. */
  datatype Fw = Fw(pc: nat, phase: nat, r0: Byte, uo: Byte, status: Level)

  function FwClock(ops: seq<Op>, f: Fw, go: Level, ui: Byte): Fw
    requires f.pc < |ops|
  {
    if f.phase < 2 then Fw(f.pc, f.phase + 1, f.r0, f.uo, f.status)
    else match ops[f.pc]
      case AwaitGo(level) => if go == level then Fw(f.pc + 1, 0, f.r0, f.uo, f.status) else f
      case Capture => Fw(f.pc + 1, 0, ui, f.uo, f.status)
      case Present => Fw(f.pc + 1, 0, f.r0, f.r0, f.status)
      case Status(level) => Fw(f.pc + 1, 0, f.r0, f.uo, level)
      case Jump(target) => Fw(target, 0, f.r0, f.uo, f.status)
  }

  function PhaseIndex(p: Phase): nat {
    match p
    case FetchLo => 0
    case FetchHi => 1
    case Execute(_) => 2
  }

  function View(c: Cpu): Fw
    requires Valid(c.s)
  {
    Fw(c.s.pc, PhaseIndex(c.phase), Reg(c.s, 0), c.s.uoOut, c.s.pinDrv[HOST_STATUS])
  }

  function PinSample(go: Level, ui: Byte): Sample {
    Sample(ui, 16 * go)
  }

  lemma GoBit(go: Level)
    ensures Bit(16 * go, HOST_GO) == go
  {
    assert Bit(16 * go, 4) == Bit(8 * go, 3) == Bit(4 * go, 2) == Bit(2 * go, 1);
  }

  lemma OpInRange(op: Op)
    requires op.Jump? ==> op.target < 256
    ensures InRange(ToInstr(op))
  {
  }

  /** The commit of one handshake instruction, as the host sees it. */
  lemma CommitView(s: State, op: Op, go: Level, ui: Byte)
    requires Valid(s) && !s.halted && s.pc < 256 && (op.Jump? ==> op.target < 256)
    ensures InRange(ToInstr(op))
    ensures Finished(ToInstr(op), 0, PinSample(go, ui)) <==> (op.AwaitGo? ==> go == op.level)
    ensures forall k: nat :: Finished(ToInstr(op), k, PinSample(go, ui)) <==> (op.AwaitGo? ==> go == op.level)
    ensures var r := Commit(s, ToInstr(op), PinSample(go, ui));
            && !r.halted
            && r.pc == (if op.Jump? then op.target else s.pc + 1)
            && r.regs[0] == (if op.Capture? then ui else s.regs[0])
            && r.uoOut == (if op.Present? then s.regs[0] else s.uoOut)
            && r.pinDrv[HOST_STATUS] == (if op.Status? then op.level else s.pinDrv[HOST_STATUS])
  {
    GoBit(go);
    hide Bit;
  }

  /** The automaton is what the cycle machine does on the compiled words, whatever else
      the program memory holds. */
  lemma FirmwareSimulates(ops: seq<Op>, prog: Program, c: Cpu, go: Level, ui: Byte)
    requires Looping(ops) && Holds(prog, ops) && Valid(c.s) && !c.s.halted && c.s.pc < |ops|
    ensures var d := CpuClock(prog, c, PinSample(go, ui));
            !d.s.halted && d.s.pc < |ops| && View(d) == FwClock(ops, View(c), go, ui)
  {
    if c.phase.Execute? {
      var op := ops[c.s.pc];
      OpInRange(op);
      DecodeEncode(ToInstr(op));
      assert prog[..|ops|][c.s.pc] == prog[c.s.pc];
      assert Fetch(prog, c.s.pc) == Encode(ToInstr(op));
      CommitView(c.s, op, go, ui);
      hide Commit, Decode, Encode, ToInstr, Finished;
    }
  }
}
