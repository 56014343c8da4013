/** The sequencer: architectural state, and one instruction as a function of the
    state, the instruction and the pins over time. */
module Machine {
  import opened Bits
  import opened Isa

  const DATA_BYTES := 512
  const WAIT_HARD_CAP := 2_000_000

  type Mode = x: int | 0 <= x < 4

  datatype State = State(
    pc: nat,
    regs: seq<Byte>,
    flag: bool,
    retaddr: nat,
    returnValid: bool,
    illegalOp: bool,
    callRetMisuse: bool,
    halted: bool,
    uoOut: Byte,
    dataMem: seq<Byte>,
    pinMode: seq<Mode>,
    pinDrv: seq<Level>)

  function Reset(): (s: State)
    ensures Valid(s)
  {
    State(0, [0, 0, 0, 0], false, 0, false, false, false, false, 0,
          seq(DATA_BYTES, _ => 0), seq(8, _ => SET_MODE_INPUT), seq(8, _ => 0))
  }

  predicate Valid(s: State) {
    && s.pc < 512
    && s.retaddr < 512
    && |s.regs| == 4
    && |s.dataMem| == DATA_BYTES
    && |s.pinMode| == 8
    && |s.pinDrv| == 8
  }

  /** The synchronized pins during one cycle. */
  datatype Sample = Sample(ui: Byte, uio: Byte)

  type Stimulus = nat -> Sample

  /** `Stuck` is the RuntimeError of a WAIT that passes the hard cap. */
  datatype Outcome = Next(state: State, cycles: nat) | Stuck

  /** The number of cycles one step of the mantissa is worth. */
  function Unit(exponent: int): (u: nat)
    requires 0 <= exponent < 4
    ensures 1 <= u <= 32768
  {
    if exponent == 0 then 1 else if exponent == 1 then 32 else if exponent == 2 then 1024 else 32768
  }

  // ------------------------------------------------------------ WAIT

  predicate Met(io: Stimulus, t: nat, pin: nat, level: nat) {
    Bit(io(t).uio, pin) == level
  }

  /** WAIT stops looking at extra cycle `k`: the pin matches, or the time is up. */
  predicate WaitDone(io: Stimulus, t: nat, i: Instr, k: nat)
    requires i.Wait? && InRange(i)
  {
    Met(io, t + k, i.pin, i.level) || (i.mantissa != 0 && k >= i.mantissa * Unit(i.exponent))
  }

  /** The first cycle from `k` on at which WAIT stops, if the hard cap allows it. */
  function WaitFrom(io: Stimulus, t: nat, i: Instr, k: nat): (r: int)
    requires i.Wait? && InRange(i)
    ensures r == -1 || (k <= r <= WAIT_HARD_CAP && WaitDone(io, t, i, r))
    ensures r >= 0 ==> forall j :: k <= j < r ==> !WaitDone(io, t, i, j)
    ensures r == -1 ==> forall j :: k <= j <= WAIT_HARD_CAP ==> !WaitDone(io, t, i, j)
    decreases WAIT_HARD_CAP + 1 - k
  {
    if k > WAIT_HARD_CAP then -1
    else if WaitDone(io, t, i, k) then k
    else WaitFrom(io, t, i, k + 1)
  }

  // ------------------------------------------------------------ one instruction

  function Reg(s: State, rd: int): (v: int)
    requires Valid(s) && 0 <= rd < 4
    ensures 0 <= v < 256
  {
    s.regs[rd]
  }

  function SetReg(s: State, rd: int, v: Byte): (r: State)
    requires Valid(s) && 0 <= rd < 4
    ensures Valid(r)
  {
    s.(regs := s.regs[rd := v])
  }

  function WithFlag(s: State, flag: bool): (r: State)
    requires Valid(s)
    ensures Valid(r)
  {
    s.(flag := flag)
  }

  function Goto(s: State, pc: nat): (r: State)
    requires Valid(s) && pc < 512
    ensures Valid(r)
  {
    s.(pc := pc)
  }

  /** CALL of `target`: the return address is the next word. */
  function Called(s: State, target: nat): (r: State)
    requires Valid(s) && target < 512
    ensures Valid(r)
  {
    s.(pc := target, retaddr := (s.pc + 1) % 512, returnValid := true,
       callRetMisuse := s.callRetMisuse || s.returnValid)
  }

  function Returned(s: State): (r: State)
    requires Valid(s)
    ensures Valid(r)
  {
    s.(pc := s.retaddr, returnValid := false, callRetMisuse := s.callRetMisuse || !s.returnValid)
  }

  function DrivePin(s: State, pin: int, level: int): (r: State)
    requires Valid(s) && 0 <= pin < 8 && 0 <= level < 2
    ensures Valid(r)
  {
    s.(pinDrv := s.pinDrv[pin := level])
  }

  /** Replace one end bit of a byte. */
  function WithBit(v: Byte, sel: int, bit: nat): Byte
    requires bit < 2
  {
    if sel == BITSEL_BIT7 then bit * 128 + v % 128 else v - v % 2 + bit
  }

  /** Instructions that write a general-purpose register, apart from LOOP. */
  predicate Writes(i: Instr) {
    i.Ldi? || i.Shift? || i.Load? || i.LoadX? || i.In? || i.InBit? || i.XorReg? || i.Add?
  }

  /** The value such an instruction writes to its `rd`. */
  function Result(s: State, i: Instr, pins: Sample): (v: int)
    requires Valid(s) && InRange(i) && Writes(i)
    ensures 0 <= v < 256
  {
    match i
    case Ldi(_, value) => value
    case In(_) => pins.ui
    case Shift(rd, dir) => if dir == SHIFT_LEFT then (Reg(s, rd) * 2) % 256 else Reg(s, rd) / 2
    case InBit(rd, pin, sel) => WithBit(Reg(s, rd), sel, Bit(pins.uio, pin))
    case Load(_, offset) => s.dataMem[offset]
    case LoadX(_, rs) => s.dataMem[Reg(s, rs)]
    case XorReg(rd, rs) => XorByte(Reg(s, rd), Reg(s, rs)); Xor(Reg(s, rd), Reg(s, rs))
    case Add(rd, rs) => (Reg(s, rd) + Reg(s, rs)) % 256
  }

  /** Instructions that change data and leave the control state alone. */
  predicate IsData(i: Instr) {
    !(i.Halt? || i.Ret? || i.Branch? || i.Loop? || i.Delay? || i.Wait?)
  }

  function DataEffect(s: State, i: Instr, pins: Sample): (r: State)
    requires Valid(s) && InRange(i) && IsData(i)
    ensures Valid(r)
  {
    if i.Add? then
      SetReg(s, i.rd, Result(s, i, pins)).(flag := Reg(s, i.rd) + Reg(s, i.rs) > 255)
    else if Writes(i) then
      SetReg(s, i.rd, Result(s, i, pins))
    else
      match i
      case Nop => s
      case SetPin(mode, pin, level) =>
        DrivePin(if mode != SET_MODE_LEAVE then s.(pinMode := s.pinMode[pin := mode]) else s, pin, level)
      case Out(rd) => s.(uoOut := Reg(s, rd))
      case TestBit(rd, bit) => s.(flag := Bit(Reg(s, rd), bit) == 1)
      case OutBit(rd, pin, sel) =>
        DrivePin(s, pin, if sel == BITSEL_BIT7 then Bit(Reg(s, rd), 7) else Reg(s, rd) % 2)
      case Store(rd, offset) => s.(dataMem := s.dataMem[offset := Reg(s, rd)])
      case Cmp(rd, rs) => s.(flag := Reg(s, rd) == Reg(s, rs))
      case Reserved(_) => s.(illegalOp := true)
  }

  predicate Taken(s: State, cond: int) {
    || cond == COND_JMP
    || (cond == COND_BEQ && s.flag)
    || (cond == COND_BNE && !s.flag)
  }

  /** Control flow; `t` is the cycle the instruction enters execution. */
  function Exec(s: State, i: Instr, io: Stimulus, t: nat): (r: Outcome)
    requires Valid(s) && InRange(i)
    ensures r.Next? ==> Valid(r.state) && r.cycles >= 3
  {
    var next := (s.pc + 1) % 512;
    match i
    case Halt => Next(s.(halted := true), 3)
    case Ret => Next(Returned(s), 3)
    case Branch(cond, addr) =>
      if cond == COND_CALL then Next(Called(s, addr), 3)
      else Next(Goto(s, if Taken(s, cond) then addr else next), 3)
    case Loop(addr, rd) =>
      var count := (Reg(s, rd) - 1) % 256;
      Next(Goto(SetReg(s, rd, count), if count != 0 then addr else next), 3)
    case Delay(mantissa, exponent) => Next(Goto(s, next), 3 + mantissa * Unit(exponent))
    case Wait(pin, level, _, _) =>
      var k := WaitFrom(io, t, i, 0);
      if k < 0 then Stuck else Next(Goto(WithFlag(s, !Met(io, t + k, pin, level)), next), 3 + k)
    case _ => Next(Goto(DataEffect(s, i, io(t)), next), 3)
  }

  function Step(s: State, w: Word, io: Stimulus, t: nat): (r: Outcome)
    requires Valid(s)
    ensures r.Next? ==> Valid(r.state) && r.cycles >= 3
  {
    Exec(s, Decode(w), io, t)
  }

  /** What a data instruction leaves alone. */
  lemma DataFrame(s: State, i: Instr, pins: Sample)
    requires Valid(s) && InRange(i) && IsData(i)
    ensures var r := DataEffect(s, i, pins);
      && r.pc == s.pc && r.retaddr == s.retaddr && r.returnValid == s.returnValid
      && r.callRetMisuse == s.callRetMisuse && r.halted == s.halted
      && r.illegalOp == (s.illegalOp || i.Reserved?)
  {
    if Writes(i) {
      hide Result;
    } else {
      hide Bit;
      match i
      case Nop =>
      case SetPin(_, _, _) =>
      case Out(_) =>
      case TestBit(_, _) =>
      case OutBit(_, _, _) =>
      case Store(_, _) =>
      case Cmp(_, _) =>
      case Reserved(_) =>
    }
  }

  /** A data instruction changes at most its destination register. */
  lemma DataRegisters(s: State, i: Instr, pins: Sample)
    requires Valid(s) && InRange(i) && IsData(i)
    ensures DataEffect(s, i, pins).regs == if Writes(i) then s.regs[i.rd := Result(s, i, pins)] else s.regs
  {
    if Writes(i) {
      hide Result;
    }
  }
}
