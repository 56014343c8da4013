/** The 16-bit instruction words: what each one means, and how each is packed. */
module Isa {
  import opened Bits

  const OP_NOP := 0
  const OP_HALT := 1
  const OP_RET := 2
  const OP_BRANCH := 3
  const OP_LDI := 4
  const OP_SET := 5
  const OP_OUT := 6
  const OP_IN := 7
  const OP_SHIFT := 8
  const OP_DELAY := 9
  const OP_WAIT := 10
  const OP_TESTBIT := 11
  const OP_OUTB := 12
  const OP_INB := 13
  const OP_LOAD := 14
  const OP_STORE := 15
  const OP_LOOP := 16
  const OP_CMP := 17
  const OP_LOADX := 18
  const OP_XOR := 19
  const OP_ADD := 20

  const COND_JMP := 0
  const COND_BEQ := 1
  const COND_BNE := 2
  const COND_CALL := 3

  const SET_MODE_LEAVE := 0
  const SET_MODE_PUSH_PULL := 1
  const SET_MODE_OPEN_DRAIN := 2
  const SET_MODE_INPUT := 3

  const SHIFT_LEFT := 0
  const SHIFT_RIGHT := 1
  const BITSEL_BIT0 := 0
  const BITSEL_BIT7 := 1

  /** An instruction with its operands. Operands are plain integers, because the
      encoders accept any integer and mask it; `InRange` says which ones fit. */
  datatype Instr =
    | Nop
    | Halt
    | Ret
    | Branch(cond: int, addr: int)
    | Ldi(rd: int, value: int)
    | SetPin(mode: int, pin: int, level: int)
    | Out(rd: int)
    | In(rd: int)
    | Shift(rd: int, dir: int)
    | Delay(mantissa: int, exponent: int)
    | Wait(pin: int, level: int, mantissa: int, exponent: int)
    | TestBit(rd: int, bit: int)
    | OutBit(rd: int, pin: int, sel: int)
    | InBit(rd: int, pin: int, sel: int)
    | Load(rd: int, offset: int)
    | Store(rd: int, offset: int)
    | Loop(addr: int, rd: int)
    | Cmp(rd: int, rs: int)
    | LoadX(rd: int, rs: int)
    | XorReg(rd: int, rs: int)
    | Add(rd: int, rs: int)
    | Reserved(opcode: int)

  /** Every operand fits its field. */
  predicate InRange(i: Instr) {
    match i
    case Nop | Halt | Ret => true
    case Branch(cond, addr) => 0 <= cond < 4 && 0 <= addr < 512
    case Ldi(rd, value) => 0 <= rd < 4 && 0 <= value < 256
    case SetPin(mode, pin, level) => 0 <= mode < 4 && 0 <= pin < 8 && 0 <= level < 2
    case Out(rd) => 0 <= rd < 4
    case In(rd) => 0 <= rd < 4
    case Shift(rd, dir) => 0 <= rd < 4 && 0 <= dir < 2
    case Delay(mantissa, exponent) => 0 <= mantissa < 512 && 0 <= exponent < 4
    case Wait(pin, level, mantissa, exponent) =>
      0 <= pin < 8 && 0 <= level < 2 && 0 <= mantissa < 32 && 0 <= exponent < 4
    case TestBit(rd, bit) => 0 <= rd < 4 && 0 <= bit < 8
    case OutBit(rd, pin, sel) => 0 <= rd < 4 && 0 <= pin < 8 && 0 <= sel < 2
    case InBit(rd, pin, sel) => 0 <= rd < 4 && 0 <= pin < 8 && 0 <= sel < 2
    case Load(rd, offset) => 0 <= rd < 4 && 0 <= offset < 512
    case Store(rd, offset) => 0 <= rd < 4 && 0 <= offset < 512
    case Loop(addr, rd) => 0 <= addr < 512 && 0 <= rd < 4
    case Cmp(rd, rs) => 0 <= rd < 4 && 0 <= rs < 4
    case LoadX(rd, rs) => 0 <= rd < 4 && 0 <= rs < 4
    case XorReg(rd, rs) => 0 <= rd < 4 && 0 <= rs < 4
    case Add(rd, rs) => 0 <= rd < 4 && 0 <= rs < 4
    case Reserved(op) => 21 <= op < 32
  }

  function Opcode(w: Word): (op: nat)
    ensures op < 32
  {
    w / 2048
  }

  /** The low 11 bits. */
  function Operands(w: Word): (x: nat)
    ensures x < 2048
  {
    w % 2048
  }

  function Rd(x: nat): nat { (x / 512) % 4 }

  function Rs(x: nat): nat { (x / 128) % 4 }

  function PinIndex(x: nat): nat { (x / 64) % 8 }

  function AuxBit(x: nat): nat { (x / 32) % 2 }

  function Address(x: nat): nat { (x / 4) % 512 }

  /** The instruction with opcode `op` and operand bits `x`. */
  function Fields(op: nat, x: nat): (i: Instr)
    requires op < 32 && x < 2048
    ensures InRange(i)
  {
    if op == OP_NOP then Nop
    else if op == OP_HALT then Halt
    else if op == OP_RET then Ret
    else if op == OP_BRANCH then Branch(x % 4, Address(x))
    else if op == OP_LDI then Ldi(Rd(x), x % 256)
    else if op == OP_SET then SetPin(Rd(x), PinIndex(x), AuxBit(x))
    else if op == OP_OUT then Out(Rd(x))
    else if op == OP_IN then In(Rd(x))
    else if op == OP_SHIFT then Shift(Rd(x), x % 2)
    else if op == OP_DELAY then Delay(x % 512, Rd(x))
    else if op == OP_WAIT then Wait(PinIndex(x), AuxBit(x), x % 32, Rd(x))
    else if op == OP_TESTBIT then TestBit(Rd(x), x % 8)
    else if op == OP_OUTB then OutBit(Rd(x), PinIndex(x), AuxBit(x))
    else if op == OP_INB then InBit(Rd(x), PinIndex(x), AuxBit(x))
    else if op == OP_LOAD then Load(Rd(x), x % 512)
    else if op == OP_STORE then Store(Rd(x), x % 512)
    else if op == OP_LOOP then Loop(Address(x), x % 4)
    else if op == OP_CMP then Cmp(Rd(x), Rs(x))
    else if op == OP_LOADX then LoadX(Rd(x), Rs(x))
    else if op == OP_XOR then XorReg(Rd(x), Rs(x))
    else if op == OP_ADD then Add(Rd(x), Rs(x))
    else Reserved(op)
  }

  function Decode(w: Word): (i: Instr)
    ensures InRange(i)
  {
    Fields(Opcode(w), Operands(w))
  }

  // ------------------------------------------------------------ encoders

  /** Every operand cut to the width of its field, as the encoders' masks do. */
  function Masked(i: Instr): (m: Instr)
    requires i.Reserved? ==> 21 <= i.opcode < 32
    ensures InRange(m)
  {
    match i
    case Nop | Halt | Ret | Reserved(_) => i
    case Branch(cond, addr) => Branch(cond % 4, addr % 512)
    case Ldi(rd, value) => Ldi(rd % 4, value % 256)
    case SetPin(mode, pin, level) => SetPin(mode % 4, pin % 8, level % 2)
    case Out(rd) => Out(rd % 4)
    case In(rd) => In(rd % 4)
    case Shift(rd, dir) => Shift(rd % 4, dir % 2)
    case Delay(mantissa, exponent) => Delay(mantissa % 512, exponent % 4)
    case Wait(pin, level, mantissa, exponent) => Wait(pin % 8, level % 2, mantissa % 32, exponent % 4)
    case TestBit(rd, bit) => TestBit(rd % 4, bit % 8)
    case OutBit(rd, pin, sel) => OutBit(rd % 4, pin % 8, sel % 2)
    case InBit(rd, pin, sel) => InBit(rd % 4, pin % 8, sel % 2)
    case Load(rd, offset) => Load(rd % 4, offset % 512)
    case Store(rd, offset) => Store(rd % 4, offset % 512)
    case Loop(addr, rd) => Loop(addr % 512, rd % 4)
    case Cmp(rd, rs) => Cmp(rd % 4, rs % 4)
    case LoadX(rd, rs) => LoadX(rd % 4, rs % 4)
    case XorReg(rd, rs) => XorReg(rd % 4, rs % 4)
    case Add(rd, rs) => Add(rd % 4, rs % 4)
  }

  function OpcodeOf(i: Instr): (op: nat)
    requires InRange(i)
    ensures op < 32
  {
    match i
    case Nop => OP_NOP
    case Halt => OP_HALT
    case Ret => OP_RET
    case Branch(_, _) => OP_BRANCH
    case Ldi(_, _) => OP_LDI
    case SetPin(_, _, _) => OP_SET
    case Out(_) => OP_OUT
    case In(_) => OP_IN
    case Shift(_, _) => OP_SHIFT
    case Delay(_, _) => OP_DELAY
    case Wait(_, _, _, _) => OP_WAIT
    case TestBit(_, _) => OP_TESTBIT
    case OutBit(_, _, _) => OP_OUTB
    case InBit(_, _, _) => OP_INB
    case Load(_, _) => OP_LOAD
    case Store(_, _) => OP_STORE
    case Loop(_, _) => OP_LOOP
    case Cmp(_, _) => OP_CMP
    case LoadX(_, _) => OP_LOADX
    case XorReg(_, _) => OP_XOR
    case Add(_, _) => OP_ADD
    case Reserved(op) => op
  }

  function OperandsOf(i: Instr): (x: nat)
    requires InRange(i)
    ensures x < 2048
  {
    match i
    case Nop | Halt | Ret | Reserved(_) => 0
    case Branch(cond, addr) => 4 * addr + cond
    case Ldi(rd, value) => 512 * rd + value
    case SetPin(mode, pin, level) => 512 * mode + 64 * pin + 32 * level
    case Out(rd) => 512 * rd
    case In(rd) => 512 * rd
    case Shift(rd, dir) => 512 * rd + dir
    case Delay(mantissa, exponent) => 512 * exponent + mantissa
    case Wait(pin, level, mantissa, exponent) => 512 * exponent + 64 * pin + 32 * level + mantissa
    case TestBit(rd, bit) => 512 * rd + bit
    case OutBit(rd, pin, sel) => 512 * rd + 64 * pin + 32 * sel
    case InBit(rd, pin, sel) => 512 * rd + 64 * pin + 32 * sel
    case Load(rd, offset) => 512 * rd + offset
    case Store(rd, offset) => 512 * rd + offset
    case Loop(addr, rd) => 4 * addr + rd
    case Cmp(rd, rs) => 512 * rd + 128 * rs
    case LoadX(rd, rs) => 512 * rd + 128 * rs
    case XorReg(rd, rs) => 512 * rd + 128 * rs
    case Add(rd, rs) => 512 * rd + 128 * rs
  }

  /** The word of an instruction. */
  function Encode(i: Instr): Word
    requires i.Reserved? ==> 21 <= i.opcode < 32
  {
    OpcodeOf(Masked(i)) * 2048 + OperandsOf(Masked(i))
  }

  lemma PinFields(rd: nat, pin: nat, aux: nat, low: nat)
    requires rd < 4 && pin < 8 && aux < 2 && low < 32
    ensures var x := 512 * rd + 64 * pin + 32 * aux + low;
      Rd(x) == rd && PinIndex(x) == pin && AuxBit(x) == aux && x % 32 == low
  {
    var x := 512 * rd + 64 * pin + 32 * aux + low;
    DivModUnique(x, 32, 16 * rd + 2 * pin + aux, low);
    DivModUnique(16 * rd + 2 * pin + aux, 2, 8 * rd + pin, aux);
    DivModUnique(x, 64, 8 * rd + pin, 32 * aux + low);
    DivModUnique(8 * rd + pin, 8, rd, pin);
    DivModUnique(x, 512, rd, 64 * pin + 32 * aux + low);
  }

  lemma RegFields(rd: nat, rs: nat)
    requires rd < 4 && rs < 4
    ensures var x := 512 * rd + 128 * rs; Rd(x) == rd && Rs(x) == rs
  {
    DivModUnique(512 * rd + 128 * rs, 128, 4 * rd + rs, 0);
    DivModUnique(4 * rd + rs, 4, rd, rs);
    DivModUnique(512 * rd + 128 * rs, 512, rd, 128 * rs);
  }

  lemma ImmFields(rd: nat, imm: nat)
    requires rd < 4 && imm < 512
    ensures var x := 512 * rd + imm; Rd(x) == rd && x % 512 == imm
  {
    DivModUnique(512 * rd + imm, 512, rd, imm);
  }

  lemma LowField(rd: nat, imm: nat, width: nat, rest: nat)
    requires width >= 1 && width * rest == 512 && imm < width
    ensures (512 * rd + imm) % width == imm
  {
    assert 512 * rd == width * (rest * rd);
    DivModUnique(512 * rd + imm, width, rest * rd, imm);
  }

  lemma AddressFields(addr: nat, low: nat)
    requires addr < 512 && low < 4
    ensures var x := 4 * addr + low; Address(x) == addr && x % 4 == low
  {
    DivModUnique(4 * addr + low, 4, addr, low);
  }

  predicate HasImm(i: Instr) {
    i.Ldi? || i.Out? || i.In? || i.Shift? || i.Delay? || i.TestBit? || i.Load? || i.Store?
  }

  predicate HasPin(i: Instr) {
    i.SetPin? || i.Wait? || i.OutBit? || i.InBit?
  }

  predicate HasRegs(i: Instr) {
    i.Cmp? || i.LoadX? || i.XorReg? || i.Add?
  }

  predicate HasAddress(i: Instr) {
    i.Branch? || i.Loop?
  }

  predicate IsBare(i: Instr) {
    i.Nop? || i.Halt? || i.Ret? || i.Reserved?
  }

  lemma ImmRoundTrip(i: Instr)
    requires InRange(i) && HasImm(i)
    ensures Fields(OpcodeOf(i), OperandsOf(i)) == i
  {
    match i
    case Ldi(rd, value) => ImmFields(rd, value); LowField(rd, value, 256, 2);
    case Out(rd) => ImmFields(rd, 0);
    case In(rd) => ImmFields(rd, 0);
    case Shift(rd, dir) => ImmFields(rd, dir); LowField(rd, dir, 2, 256);
    case Delay(mantissa, exponent) => ImmFields(exponent, mantissa);
    case TestBit(rd, bit) => ImmFields(rd, bit); LowField(rd, bit, 8, 64);
    case Load(rd, offset) => ImmFields(rd, offset);
    case Store(rd, offset) => ImmFields(rd, offset);
  }

  lemma PinRoundTrip(i: Instr)
    requires InRange(i) && HasPin(i)
    ensures Fields(OpcodeOf(i), OperandsOf(i)) == i
  {
    match i
    case SetPin(mode, pin, level) => PinFields(mode, pin, level, 0);
    case Wait(pin, level, mantissa, exponent) => PinFields(exponent, pin, level, mantissa);
    case OutBit(rd, pin, sel) => PinFields(rd, pin, sel, 0);
    case InBit(rd, pin, sel) => PinFields(rd, pin, sel, 0);
  }

  lemma RegsRoundTrip(i: Instr)
    requires InRange(i) && HasRegs(i)
    ensures Fields(OpcodeOf(i), OperandsOf(i)) == i
  {
    match i
    case Cmp(rd, rs) => RegFields(rd, rs);
    case LoadX(rd, rs) => RegFields(rd, rs);
    case XorReg(rd, rs) => RegFields(rd, rs);
    case Add(rd, rs) => RegFields(rd, rs);
  }

  lemma AddressRoundTrip(i: Instr)
    requires InRange(i) && HasAddress(i)
    ensures Fields(OpcodeOf(i), OperandsOf(i)) == i
  {
    match i
    case Branch(cond, addr) => AddressFields(addr, cond);
    case Loop(addr, rd) => AddressFields(addr, rd);
  }

  lemma BareRoundTrip(i: Instr)
    requires InRange(i) && IsBare(i)
    ensures Fields(OpcodeOf(i), OperandsOf(i)) == i
  {
  }

  lemma Formats(i: Instr)
    ensures HasImm(i) || HasPin(i) || HasRegs(i) || HasAddress(i) || IsBare(i)
  {
  }

  /** The operand fields of an instruction, read back. */
  lemma FieldsOfOperands(i: Instr)
    requires InRange(i)
    ensures Fields(OpcodeOf(i), OperandsOf(i)) == i
  {
    hide *;
    Formats(i);
    if HasImm(i) {
      ImmRoundTrip(i);
    } else if HasPin(i) {
      PinRoundTrip(i);
    } else if HasRegs(i) {
      RegsRoundTrip(i);
    } else if HasAddress(i) {
      AddressRoundTrip(i);
    } else {
      BareRoundTrip(i);
    }
  }

  lemma ImmUnmasked(i: Instr)
    requires InRange(i) && HasImm(i)
    ensures Masked(i) == i
  {
  }

  lemma PinUnmasked(i: Instr)
    requires InRange(i) && HasPin(i)
    ensures Masked(i) == i
  {
  }

  lemma OtherUnmasked(i: Instr)
    requires InRange(i) && (HasRegs(i) || HasAddress(i) || IsBare(i))
    ensures Masked(i) == i
  {
  }

  lemma InRangeUnmasked(i: Instr)
    requires InRange(i)
    ensures Masked(i) == i
  {
    hide *;
    Formats(i);
    if HasImm(i) {
      ImmUnmasked(i);
    } else if HasPin(i) {
      PinUnmasked(i);
    } else {
      OtherUnmasked(i);
    }
  }

  /** Decoding an encoded instruction gives back its operands, cut to their fields. */
  lemma DecodeEncode(i: Instr)
    requires i.Reserved? ==> 21 <= i.opcode < 32
    ensures Decode(Encode(i)) == Masked(i)
    ensures InRange(i) ==> Decode(Encode(i)) == i
  {
    hide Masked, OpcodeOf, OperandsOf, Fields, InRange;
    var m := Masked(i);
    DivModUnique(Encode(i), 2048, OpcodeOf(m), OperandsOf(m));
    FieldsOfOperands(m);
    if InRange(i) {
      InRangeUnmasked(i);
    }
  }

  /** Two different in-range instructions never share a word. */
  lemma EncodeInjective(i: Instr, j: Instr)
    requires InRange(i) && InRange(j) && Encode(i) == Encode(j)
    ensures i == j
  {
    DecodeEncode(i);
    DecodeEncode(j);
  }

  // ------------------------------------------------------------ words by number

  /** The opcodes by their numbers, in the top five bits. */
  lemma OpcodeNumbers(w: Word)
    ensures var i, op := Decode(w), w / 2048;
            && (i.Nop? <==> op == 0) && (i.Halt? <==> op == 1) && (i.Ret? <==> op == 2) && (i.Branch? <==> op == 3)
            && (i.Ldi? <==> op == 4) && (i.SetPin? <==> op == 5) && (i.Out? <==> op == 6) && (i.In? <==> op == 7)
            && (i.Shift? <==> op == 8) && (i.Delay? <==> op == 9) && (i.Wait? <==> op == 10)
            && (i.TestBit? <==> op == 11) && (i.OutBit? <==> op == 12) && (i.InBit? <==> op == 13)
            && (i.Load? <==> op == 14) && (i.Store? <==> op == 15) && (i.Loop? <==> op == 16)
            && (i.Cmp? <==> op == 17) && (i.LoadX? <==> op == 18) && (i.XorReg? <==> op == 19)
            && (i.Add? <==> op == 20) && (i.Reserved? <==> op >= 21)
  {
  }

  /** The operands by the bits they are read from. */
  lemma OperandBits(w: Word)
    ensures var i, x := Decode(w), w % 2048;
            && (i.Branch? ==> i.cond == x % 4 && i.addr == x / 4)
            && (i.Loop? ==> i.rd == x % 4 && i.addr == x / 4)
            && (HasImm(i) && !i.Delay? ==> i.rd == x / 512)
            && (i.Ldi? ==> i.value == x % 256) && (i.Shift? ==> i.dir == x % 2) && (i.TestBit? ==> i.bit == x % 8)
            && (i.Load? || i.Store? ==> i.offset == x % 512)
            && (i.Delay? ==> i.exponent == x / 512 && i.mantissa == x % 512)
            && (i.Wait? ==> i.exponent == x / 512 && i.mantissa == x % 32 && i.level == x / 32 % 2)
            && (i.SetPin? ==> i.mode == x / 512 && i.level == x / 32 % 2)
            && (i.OutBit? || i.InBit? ==> i.rd == x / 512 && i.sel == x / 32 % 2)
            && (HasPin(i) ==> i.pin == x / 64 % 8)
            && (HasRegs(i) ==> i.rd == x / 512 && i.rs == x / 128 % 4)
  {
  }
}
