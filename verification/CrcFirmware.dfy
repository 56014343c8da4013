/** The CRC-8 firmware idioms, bit by bit and table driven, as word streams run by the sequencer. */
module CrcFirmware {
  import opened Bits
  import opened Isa
  import opened Machine
  import opened Runs
  import opened FirmwareRuns
  import opened Crc8

  // ------------------------------------------------------------ the programs

  /** One message byte, bit by bit: R0 is the register, R1 the byte, R2 the polynomial
      and R3 the bit count. `base` is where the block starts. */
  function BitwiseBlock(k: nat, base: nat): (code: seq<Instr>)
    ensures |code| == 14
  {
    [Load(1, k), XorReg(0, 1), Ldi(3, 8),
     TestBit(0, 7), Shift(0, SHIFT_LEFT), XorReg(0, 2), Branch(COND_BEQ, base + 8), XorReg(0, 2), Loop(base + 3, 3)]
    + SendCode(0)
  }

  /** One message byte through the table. */
  function TableBlock(k: nat): (code: seq<Instr>)
    ensures |code| == 8
  {
    [Load(1, 256 + k), XorReg(1, 0), LoadX(0, 1)] + SendCode(0)
  }

  function BitwiseCode(n: nat): (code: seq<Instr>)
    ensures |code| == 2 + 14 * n
  {
    if n == 0 then [Ldi(0, 0), Ldi(2, POLY8)] else BitwiseCode(n - 1) + BitwiseBlock(n - 1, 2 + 14 * (n - 1))
  }

  function TableCode(n: nat): (code: seq<Instr>)
    ensures |code| == 1 + 8 * n
  {
    if n == 0 then [Ldi(0, 0)] else TableCode(n - 1) + TableBlock(n - 1)
  }

  function Assembled(code: seq<Instr>): (w: Program)
    requires forall j :: 0 <= j < |code| ==> !code[j].Reserved?
    ensures |w| == |code|
  {
    seq(|code|, j requires 0 <= j < |code| => Encode(code[j]))
  }

  predicate Encodable(code: seq<Instr>) {
    forall j :: 0 <= j < |code| ==> InRange(code[j]) && !code[j].Reserved?
  }

  lemma SendEncodable(rd: nat)
    requires rd < 4
    ensures Encodable(SendCode(rd))
  {
  }

  lemma {:induction false} BitwiseEncodable(n: nat)
    requires n <= 18
    ensures Encodable(BitwiseCode(n))
  {
    if n > 0 {
      BitwiseEncodable(n - 1);
      SendEncodable(0);
    }
  }

  lemma {:induction false} TableEncodable(n: nat)
    requires n <= 31
    ensures Encodable(TableCode(n))
  {
    if n > 0 {
      TableEncodable(n - 1);
      SendEncodable(0);
    }
  }

  lemma AssembledAt(code: seq<Instr>, j: nat)
    requires Encodable(code) && j < |code|
    ensures Decode(Fetch(Assembled(code), j)) == code[j]
  {
    DecodeEncode(code[j]);
    hide Decode, Encode;
  }

  lemma InstrHere(prog: Program, a: nat, code: seq<Instr>, j: nat)
    requires j < |code| && Decode(Fetch(prog, a + j)) == code[j]
    ensures InstrAt(prog, a, code, j)
  {
  }

  /** Every word of an assembled program decodes to its instruction. */
  lemma AssembledDecodes(code: seq<Instr>, a: nat, part: seq<Instr>)
    requires Encodable(code) && a + |part| <= |code| && code[a..a + |part|] == part
    ensures CodeAt(Assembled(code), a, part)
  {
    hide Decode, Encode, InstrAt, Fetch, Assembled, InRange;
    forall j | 0 <= j < |part| ensures InstrAt(Assembled(code), a, part, j) {
      assert part[j] == code[a + j];
      AssembledAt(code, a + j);
      InstrHere(Assembled(code), a, part, j);
    }
  }

  // ------------------------------------------------------------ one byte, bit by bit

  /** The program counter, the running CRC in R0 and the polynomial in R2. */
  predicate Running(k: Core, pc: nat, crc: Byte) {
    k.pc == pc && |k.regs| == 4 && k.regs[0] == crc && k.regs[2] == POLY8
  }

  predicate BitLoop(k: Core, base: nat, crc: Byte, count: nat) {
    Running(k, base + 3, crc) && 1 <= count <= 8 && k.regs[3] == count
  }

  /** Two paths meet: the second extends the first without an output. */
  lemma Silently(prog: Program, io: Stimulus, c: Config, d: Config, e: Config)
    requires Reaches(prog, io, c, d, []) && Reaches(prog, io, d, e, [])
    ensures Reaches(prog, io, c, e, [])
  {
    var none: seq<Byte> := [];
    assert none + none == none;
    ReachesThen(prog, io, c, d, e, [], []);
  }

  /** The next plain instruction of a code block. */
  lemma BlockStep(prog: Program, io: Stimulus, c0: Config, c: Config, k: Core, mem: seq<Byte>, a: nat,
                  code: seq<Instr>, j: nat)
    returns (d: Config)
    requires Reaches(prog, io, c0, c, []) && AtCore(c, k, mem) && CoreOk(k, mem)
    requires CodeAt(prog, a, code) && j < |code| && k.pc == a + j && Plain(code[j])
    ensures InRange(code[j]) && AtCore(d, CoreStep(k, code[j], mem), mem) && Reaches(prog, io, c0, d, [])
  {
    assert InstrAt(prog, a, code, j);
    hide Decode, Fetch, Reaches;
    d := PlainStep(prog, io, c, k, mem, code[j]);
    Silently(prog, io, c0, c, d);
  }

  lemma BitwiseAt(n: nat, base: nat)
    ensures var code := BitwiseBlock(n, base);
            && code[0] == Load(1, n) && code[1] == XorReg(0, 1) && code[2] == Ldi(3, 8)
            && code[3] == TestBit(0, 7) && code[4] == Shift(0, SHIFT_LEFT) && code[5] == XorReg(0, 2)
            && code[6] == Branch(COND_BEQ, base + 8) && code[7] == XorReg(0, 2) && code[8] == Loop(base + 3, 3)
  {
  }

  /** Test the top bit, shift, and add the polynomial without knowing yet. */
  lemma RunShift(prog: Program, io: Stimulus, c: Config, k: Core, mem: seq<Byte>, base: nat, n: nat, crc: Byte)
    returns (d: Config, k': Core)
    requires AtCore(c, k, mem) && |mem| == DATA_BYTES && base + 14 < 511
    requires CodeAt(prog, base, BitwiseBlock(n, base)) && Running(k, base + 3, crc)
    ensures AtCore(d, k', mem) && Reaches(prog, io, c, d, [])
    ensures Xor((2 * crc) % 0x100, POLY8) < 0x100
    ensures Running(k', base + 6, Xor((2 * crc) % 0x100, POLY8)) && k'.regs[3] == k.regs[3]
    ensures k'.flag == (Bit(crc, 7) == 1)
  {
    var code := BitwiseBlock(n, base);
    BitwiseAt(n, base);
    AtCoreValid(c, k, mem);
    hide *;
    var k1, k2, k3 := ShiftSteps(k, mem, base, crc);
    ReachesSelf(prog, io, c);
    var c1 := BlockStep(prog, io, c, c, k, mem, base, code, 3);
    var c2 := BlockStep(prog, io, c, c1, k1, mem, base, code, 4);
    d := BlockStep(prog, io, c, c2, k2, mem, base, code, 5);
    k' := k3;
  }

  lemma ShiftSteps(k: Core, mem: seq<Byte>, base: nat, crc: Byte) returns (k1: Core, k2: Core, k3: Core)
    requires |mem| == DATA_BYTES && Running(k, base + 3, crc) && base + 14 < 511
    ensures k.pc == base + 3 && k1.pc == base + 4 && k2.pc == base + 5
    ensures CoreOk(k, mem) && InRange(TestBit(0, 7)) && Plain(TestBit(0, 7)) && k1 == CoreStep(k, TestBit(0, 7), mem)
    ensures CoreOk(k1, mem) && InRange(Shift(0, SHIFT_LEFT)) && Plain(Shift(0, SHIFT_LEFT))
    ensures k2 == CoreStep(k1, Shift(0, SHIFT_LEFT), mem)
    ensures CoreOk(k2, mem) && InRange(XorReg(0, 2)) && Plain(XorReg(0, 2)) && k3 == CoreStep(k2, XorReg(0, 2), mem)
    ensures Xor((2 * crc) % 0x100, POLY8) < 0x100
    ensures Running(k3, base + 6, Xor((2 * crc) % 0x100, POLY8)) && |k.regs| == |k3.regs| == 4
    ensures k3.regs[3] == k.regs[3] && k3.flag == (Bit(crc, 7) == 1)
  {
    XorByte((2 * crc) % 0x100, POLY8);
    ShiftOps();
    hide Xor, Bit, InRange, Plain;
    k1 := CoreStep(k, TestBit(0, 7), mem);
    k2 := CoreStep(k1, Shift(0, SHIFT_LEFT), mem);
    k3 := CoreStep(k2, XorReg(0, 2), mem);
  }

  lemma ShiftOps()
    ensures InRange(TestBit(0, 7)) && InRange(Shift(0, SHIFT_LEFT)) && InRange(XorReg(0, 2))
    ensures Plain(TestBit(0, 7)) && Plain(Shift(0, SHIFT_LEFT)) && Plain(XorReg(0, 2))
  {
  }

  /** Undo the addition when the bit was clear, and count. */
  lemma RunUndo(prog: Program, io: Stimulus, c: Config, k: Core, mem: seq<Byte>, base: nat, n: nat, crc: Byte)
    returns (d: Config, k': Core)
    requires AtCore(c, k, mem) && |mem| == DATA_BYTES && base + 14 < 511
    requires CodeAt(prog, base, BitwiseBlock(n, base)) && Running(k, base + 6, crc)
    ensures AtCore(d, k', mem) && Reaches(prog, io, c, d, [])
    ensures Xor(crc, POLY8) < 0x100
    ensures Running(k', base + 8, if k.flag then crc else Xor(crc, POLY8)) && k'.regs[3] == k.regs[3]
  {
    var code := BitwiseBlock(n, base);
    ReachesSelf(prog, io, c);
    XorByte(crc, POLY8);
    BitwiseAt(n, base);
    hide BitwiseBlock, CodeAt, Reaches, Live, Xor, AtCore;
    k' := CoreStep(k, code[6], mem);
    d := BlockStep(prog, io, c, c, k, mem, base, code, 6);
    if !k.flag {
      d := BlockStep(prog, io, c, d, k', mem, base, code, 7);
      k' := CoreStep(k', code[7], mem);
    }
  }

  lemma RunCount(prog: Program, io: Stimulus, c: Config, k: Core, mem: seq<Byte>, base: nat, n: nat, crc: Byte,
                 count: nat)
    returns (d: Config, k': Core)
    requires AtCore(c, k, mem) && |mem| == DATA_BYTES && base + 14 < 511
    requires CodeAt(prog, base, BitwiseBlock(n, base)) && Running(k, base + 8, crc) && 1 <= count <= 8
    requires k.regs[3] == count
    ensures AtCore(d, k', mem) && Reaches(prog, io, c, d, [])
    ensures if count > 1 then BitLoop(k', base, crc, count - 1) else Running(k', base + 9, crc)
  {
    var code := BitwiseBlock(n, base);
    ReachesSelf(prog, io, c);
    BitwiseAt(n, base);
    hide BitwiseBlock, CodeAt, Reaches, Live, AtCore;
    k' := CoreStep(k, code[8], mem);
    d := BlockStep(prog, io, c, c, k, mem, base, code, 8);
  }

  /** One pass through the bit loop shifts the register once. */
  lemma RunBit(prog: Program, io: Stimulus, c: Config, k: Core, mem: seq<Byte>, base: nat, n: nat, crc: Byte,
               count: nat)
    returns (d: Config, k': Core)
    requires AtCore(c, k, mem) && |mem| == DATA_BYTES && base + 14 < 511
    requires CodeAt(prog, base, BitwiseBlock(n, base)) && BitLoop(k, base, crc, count)
    ensures AtCore(d, k', mem) && Reaches(prog, io, c, d, [])
    ensures if count > 1 then BitLoop(k', base, Shift8(crc), count - 1) else Running(k', base + 9, Shift8(crc))
  {
    TentativeXor(crc);
    hide BitwiseBlock, CodeAt, Reaches, Live, AtCore, Xor, Bit, Shift8;
    var x := Xor((2 * crc) % 0x100, POLY8);
    var c1, k1 := RunShift(prog, io, c, k, mem, base, n, crc);
    var c2, k2 := RunUndo(prog, io, c1, k1, mem, base, n, x);
    Silently(prog, io, c, c1, c2);
    d, k' := RunCount(prog, io, c2, k2, mem, base, n, Shift8(crc), count);
    Silently(prog, io, c, c2, d);
  }

  /** The rest of the bit loop shifts the register once per count. */
  lemma {:induction false} RunBits(prog: Program, io: Stimulus, c: Config, k: Core, mem: seq<Byte>, base: nat, n: nat,
                                   crc: Byte, count: nat)
    returns (d: Config, k': Core)
    requires AtCore(c, k, mem) && |mem| == DATA_BYTES && base + 14 < 511
    requires CodeAt(prog, base, BitwiseBlock(n, base)) && BitLoop(k, base, crc, count)
    ensures AtCore(d, k', mem) && Reaches(prog, io, c, d, [])
    ensures Running(k', base + 9, Shifts8(crc, count))
    decreases count
  {
    d, k' := RunBit(prog, io, c, k, mem, base, n, crc, count);
    hide CodeAt, Reaches, Live, Shift8;
    if count > 1 {
      var d1 := d;
      d, k' := RunBits(prog, io, d1, k', mem, base, n, Shift8(crc), count - 1);
      Silently(prog, io, c, d1, d);
    } else {
      assert Shifts8(Shift8(crc), 0) == Shift8(crc);
    }
  }

  /** Load the byte, add it to the register, set the bit count. */
  lemma StartSteps(k: Core, mem: seq<Byte>, base: nat, n: nat, crc: Byte) returns (k1: Core, k2: Core, k3: Core)
    requires |mem| == DATA_BYTES && n < 256 && base + 14 < 511 && Running(k, base, crc)
    ensures k.pc == base && k1.pc == base + 1 && k2.pc == base + 2
    ensures CoreOk(k, mem) && InRange(Load(1, n)) && Plain(Load(1, n)) && k1 == CoreStep(k, Load(1, n), mem)
    ensures CoreOk(k1, mem) && InRange(XorReg(0, 1)) && Plain(XorReg(0, 1)) && k2 == CoreStep(k1, XorReg(0, 1), mem)
    ensures CoreOk(k2, mem) && InRange(Ldi(3, 8)) && Plain(Ldi(3, 8)) && k3 == CoreStep(k2, Ldi(3, 8), mem)
    ensures 0 <= Xor(crc, mem[n]) < 0x100 && BitLoop(k3, base, Xor(crc, mem[n]), 8)
  {
    XorByte(crc, mem[n]);
    hide Xor;
    k1 := CoreStep(k, Load(1, n), mem);
    k2 := CoreStep(k1, XorReg(0, 1), mem);
    k3 := CoreStep(k2, Ldi(3, 8), mem);
  }

  /** A whole block takes one message byte into the register and presents it. */
  lemma RunBitwiseBlock(prog: Program, io: Stimulus, c: Config, k: Core, mem: seq<Byte>, base: nat, n: nat, crc: Byte)
    returns (d: Config, k': Core)
    requires AtCore(c, k, mem) && |mem| == DATA_BYTES && base + 14 < 511 && n < 256 && Attends(prog, io, c)
    requires CodeAt(prog, base, BitwiseBlock(n, base)) && Running(k, base, crc)
    ensures AtCore(d, k', mem) && Running(k', base + 14, Absorb(crc, mem[n]))
    ensures Reaches(prog, io, c, d, [Absorb(crc, mem[n])])
  {
    var code, next := BitwiseBlock(n, base), Absorb(crc, mem[n]);
    XorByte(crc, mem[n]);
    SendAt(prog, base, code, 9, 0);
    assert next == Shifts8(Xor(crc, mem[n]), 8);
    BitwiseAt(n, base);
    AtCoreValid(c, k, mem);
    hide BitwiseBlock, CodeAt, Reaches, Live, Xor, Shifts8, Absorb, Attends, AtCore, CoreStep, Plain;
    ReachesSelf(prog, io, c);
    var k1, k2, k3 := StartSteps(k, mem, base, n, crc);
    var c1 := BlockStep(prog, io, c, c, k, mem, base, code, 0);
    var c2 := BlockStep(prog, io, c, c1, k1, mem, base, code, 1);
    var c3 := BlockStep(prog, io, c, c2, k2, mem, base, code, 2);
    var c4, k4 := RunBits(prog, io, c3, k3, mem, base, n, Xor(crc, mem[n]), 8);
    Silently(prog, io, c, c3, c4);
    AttendsLater(prog, io, c, c4, []);
    var flag;
    d, flag := SendStep(prog, io, c4, k4, mem, 0);
    k' := Core(base + 14, k4.regs, flag);
    ReachesThen(prog, io, c, c4, d, [], [next]);
    assert [] + [next] == [next];
  }

  /** The handshake at the end of a block. */
  lemma SendAt(prog: Program, base: nat, code: seq<Instr>, j: nat, rd: nat)
    requires CodeAt(prog, base, code) && j + 5 <= |code| && code[j..j + 5] == SendCode(rd)
    ensures CodeAt(prog, base + j, SendCode(rd))
  {
    var a, send := base + j, SendCode(rd);
    forall m | 0 <= m < |send| ensures InstrAt(prog, a, send, m) {
      assert InstrAt(prog, base, code, j + m);
    }
  }

  // ------------------------------------------------------------ whole programs

  /** The running CRC after each of the first `m` bytes. */
  function Running8(msg: seq<Byte>, m: nat): (outs: seq<Byte>)
    requires m <= |msg|
    ensures |outs| == m
  {
    if m == 0 then [] else Running8(msg, m - 1) + [Crc(msg[..m])]
  }

  lemma CrcNext(msg: seq<Byte>, m: nat)
    requires m < |msg|
    ensures Crc(msg[..m + 1]) == Absorb(Crc(msg[..m]), msg[m])
  {
    CrcSnoc(0, msg[..m], msg[m]);
    assert msg[..m] + [msg[m]] == msg[..m + 1];
  }

  lemma HaltEnds(prog: Program, io: Stimulus, c: Config, k: Core, mem: seq<Byte>) returns (d: Config)
    requires AtCore(c, k, mem) && CoreOk(k, mem) && Decode(Fetch(prog, k.pc)) == Halt
    ensures Reaches(prog, io, c, d, []) && d.s.halted
  {
    var r := Advance(prog, io, c);
    hide Decode, Fetch;
    d := After(c, r);
    ReachesOne(prog, io, c);
  }

  function BitwiseProgram(n: nat): Program
    requires n <= 18
  {
    BitwiseEncodable(n);
    Assembled(BitwiseCode(n) + [Halt])
  }

  function TableProgram(n: nat): Program
    requires n <= 31
  {
    TableEncodable(n);
    Assembled(TableCode(n) + [Halt])
  }

  /** The source's append loop. */
  method BuildBitwise(n: nat) returns (words: Program)
    requires n <= 18
    ensures words == BitwiseProgram(n) && |words| <= 256
  {
    hide SendCode, BitwiseBlock, Assembled, Encodable;
    var code := [Ldi(0, 0), Ldi(2, POLY8)];
    for k := 0 to n
      invariant code == BitwiseCode(k)
    {
      var here := |code|;
      var top, keep := here + 3, here + 8;
      BitwiseBlockIs(k, here);
      code := code + ([Load(1, k), XorReg(0, 1), Ldi(3, 8), TestBit(0, 7), Shift(0, SHIFT_LEFT), XorReg(0, 2),
                       Branch(COND_BEQ, keep), XorReg(0, 2), Loop(top, 3)] + SendCode(0));
    }
    BitwiseEncodable(n);
    words := Assembled(code + [Halt]);
  }

  lemma BitwiseBlockIs(k: nat, base: nat)
    ensures BitwiseBlock(k, base) ==
            [Load(1, k), XorReg(0, 1), Ldi(3, 8), TestBit(0, 7), Shift(0, SHIFT_LEFT), XorReg(0, 2),
             Branch(COND_BEQ, base + 8), XorReg(0, 2), Loop(base + 3, 3)] + SendCode(0)
  {
    hide SendCode;
  }

  lemma {:induction false} BitwisePrefix(n: nat, m: nat)
    requires m <= n
    ensures |BitwiseCode(n)| >= 2 + 14 * m && BitwiseCode(n)[..2 + 14 * m] == BitwiseCode(m)
    decreases n
  {
    if m < n {
      BitwisePrefix(n - 1, m);
      assert BitwiseCode(n)[..2 + 14 * m] == BitwiseCode(n - 1)[..2 + 14 * m];
    }
  }

  lemma {:induction false} TablePrefix(n: nat, m: nat)
    requires m <= n
    ensures |TableCode(n)| >= 1 + 8 * m && TableCode(n)[..1 + 8 * m] == TableCode(m)
    decreases n
  {
    if m < n {
      TablePrefix(n - 1, m);
      assert TableCode(n)[..1 + 8 * m] == TableCode(n - 1)[..1 + 8 * m];
    }
  }

  lemma BitwiseSlice(n: nat, m: nat)
    requires m < n
    ensures |BitwiseCode(n)| >= 16 + 14 * m && BitwiseCode(n)[2 + 14 * m..16 + 14 * m] == BitwiseBlock(m, 2 + 14 * m)
  {
    hide BitwiseBlock;
    BitwisePrefix(n, m + 1);
    assert BitwiseCode(n)[2 + 14 * m..16 + 14 * m] == BitwiseCode(m + 1)[2 + 14 * m..];
  }

  /** Where the blocks of the bitwise program lie. */
  lemma BitwiseBlockAt(n: nat, m: nat)
    requires m < n <= 18
    ensures CodeAt(BitwiseProgram(n), 2 + 14 * m, BitwiseBlock(m, 2 + 14 * m))
  {
    hide BitwiseBlock, Assembled, CodeAt, BitwiseCode, Encodable;
    BitwiseEncodable(n);
    BitwiseSlice(n, m);
    BlockInProgram(BitwiseCode(n), 2 + 14 * m, BitwiseBlock(m, 2 + 14 * m));
  }

  /** A slice of the code, in the program that ends with HALT. */
  lemma BlockInProgram(code: seq<Instr>, a: nat, block: seq<Instr>)
    requires Encodable(code) && a + |block| <= |code| && code[a..a + |block|] == block
    ensures CodeAt(Assembled(code + [Halt]), a, block)
  {
    assert (code + [Halt])[a..a + |block|] == block;
    AssembledDecodes(code + [Halt], a, block);
    hide CodeAt, Assembled;
  }

  lemma TableSlice(n: nat, m: nat)
    requires m < n
    ensures |TableCode(n)| >= 9 + 8 * m && TableCode(n)[1 + 8 * m..9 + 8 * m] == TableBlock(m)
  {
    hide TableBlock;
    TablePrefix(n, m + 1);
    assert TableCode(n)[1 + 8 * m..9 + 8 * m] == TableCode(m + 1)[1 + 8 * m..];
  }

  lemma TableBlockAt(n: nat, m: nat)
    requires m < n <= 31
    ensures CodeAt(TableProgram(n), 1 + 8 * m, TableBlock(m))
  {
    hide TableBlock, Assembled, CodeAt, TableCode, Encodable;
    TableEncodable(n);
    TableSlice(n, m);
    BlockInProgram(TableCode(n), 1 + 8 * m, TableBlock(m));
  }

  lemma HaltAt(code: seq<Instr>)
    requires Encodable(code + [Halt])
    ensures Decode(Fetch(Assembled(code + [Halt]), |code|)) == Halt
  {
    DecodeEncode(Halt);
    hide Decode, Encode;
  }

  /** The two LDIs. */
  lemma BitwiseStart(n: nat, io: Stimulus, c: Config, mem: seq<Byte>) returns (d: Config, k: Core)
    requires n <= 18 && |mem| == DATA_BYTES && Live(c) && c.s.pc == 0 && c.s.dataMem == mem
    ensures Reaches(BitwiseProgram(n), io, c, d, []) && AtCore(d, k, mem) && Running(k, 2, 0)
  {
    var prog, head := BitwiseProgram(n), BitwiseCode(0);
    BitwiseEncodable(n);
    BitwisePrefix(n, 0);
    assert BitwiseCode(n)[0..2] == head;
    BlockInProgram(BitwiseCode(n), 0, head);
    assert prog == Assembled(BitwiseCode(n) + [Halt]);
    assert head == [Ldi(0, 0), Ldi(2, POLY8)];
    d, k := RunHead(prog, io, c, mem, head);
  }

  lemma RunHead(prog: Program, io: Stimulus, c: Config, mem: seq<Byte>, head: seq<Instr>) returns (d: Config, k: Core)
    requires |mem| == DATA_BYTES && Live(c) && c.s.pc == 0 && c.s.dataMem == mem
    requires head == [Ldi(0, 0), Ldi(2, POLY8)] && CodeAt(prog, 0, head)
    ensures Reaches(prog, io, c, d, []) && AtCore(d, k, mem) && Running(k, 2, 0)
  {
    ReachesSelf(prog, io, c);
    k := Core(0, c.s.regs, c.s.flag);
    hide CodeAt, Reaches;
    d := BlockStep(prog, io, c, c, k, mem, 0, head, 0);
    k := CoreStep(k, head[0], mem);
    hide AtCore;
    d := BlockStep(prog, io, c, d, k, mem, 0, head, 1);
    k := CoreStep(k, head[1], mem);
  }

  /** After `m` blocks. */
  ghost predicate AfterBlocks(prog: Program, io: Stimulus, c: Config, d: Config, k: Core, pc: nat, mem: seq<Byte>,
                              msg: seq<Byte>, m: nat)
    requires m <= |msg|
  {
    Reaches(prog, io, c, d, Running8(msg, m)) && AtCore(d, k, mem) && k.pc == pc && |k.regs| == 4
      && k.regs[0] == Crc(msg[..m])
  }

  lemma AfterParts(prog: Program, io: Stimulus, c: Config, d: Config, k: Core, pc: nat, mem: seq<Byte>,
                   msg: seq<Byte>, m: nat)
    requires m <= |msg| && AfterBlocks(prog, io, c, d, k, pc, mem, msg, m) && pc < 511 && |mem| == DATA_BYTES
    ensures Reaches(prog, io, c, d, Running8(msg, m)) && AtCore(d, k, mem) && k.pc == pc && CoreOk(k, mem)
  {
    hide Reaches, AtCore, Running8;
  }

  lemma DataSize(c: Config)
    requires Live(c)
    ensures |c.s.dataMem| == DATA_BYTES && DATA_BYTES == 512
  {
  }

  lemma BitwiseHaltAt(n: nat)
    requires n <= 18
    ensures Decode(Fetch(BitwiseProgram(n), 2 + 14 * n)) == Halt
  {
    BitwiseEncodable(n);
    hide BitwiseCode, Assembled, Decode, Fetch;
    HaltAt(BitwiseCode(n));
  }

  lemma TableHaltAt(n: nat)
    requires n <= 31
    ensures Decode(Fetch(TableProgram(n), 1 + 8 * n)) == Halt
  {
    TableEncodable(n);
    hide TableCode, Assembled, Decode, Fetch;
    HaltAt(TableCode(n));
  }

  /** One more block presents one more running CRC. */
  lemma AnotherBlock(prog: Program, io: Stimulus, c: Config, d1: Config, d: Config, msg: seq<Byte>, m: nat, out: Byte)
    requires m < |msg| && out == Absorb(Crc(msg[..m]), msg[m])
    requires Reaches(prog, io, c, d1, Running8(msg, m)) && Reaches(prog, io, d1, d, [out])
    ensures Crc(msg[..m + 1]) == out && Reaches(prog, io, c, d, Running8(msg, m + 1))
  {
    CrcNext(msg, m);
    assert Running8(msg, m + 1) == Running8(msg, m) + [out];
    hide Reaches, Running8, Crc, Absorb;
    ReachesThen(prog, io, c, d1, d, Running8(msg, m), [out]);
  }

  lemma BitwiseNext(msg: seq<Byte>, m: nat, io: Stimulus, c: Config, mem: seq<Byte>, d1: Config, k1: Core)
    returns (d: Config, k: Core)
    requires m < |msg| <= 18 && |mem| == DATA_BYTES && msg == mem[..|msg|] && Attends(BitwiseProgram(|msg|), io, c)
    requires AfterBlocks(BitwiseProgram(|msg|), io, c, d1, k1, 2 + 14 * m, mem, msg, m) && k1.regs[2] == POLY8
    ensures AfterBlocks(BitwiseProgram(|msg|), io, c, d, k, 2 + 14 * (m + 1), mem, msg, m + 1) && k.regs[2] == POLY8
  {
    BitwiseBlockAt(|msg|, m);
    assert mem[m] == msg[m];
    hide BitwiseProgram, Reaches, CodeAt, Live, AtCore, Attends, BitwiseBlock, Absorb, Running8, Crc;
    AttendsLater(BitwiseProgram(|msg|), io, c, d1, Running8(msg, m));
    d, k := RunBitwiseBlock(BitwiseProgram(|msg|), io, d1, k1, mem, 2 + 14 * m, m, Crc(msg[..m]));
    AnotherBlock(BitwiseProgram(|msg|), io, c, d1, d, msg, m, k.regs[0]);
  }

  lemma {:induction false} BitwiseBlocks(msg: seq<Byte>, m: nat, io: Stimulus, c: Config, mem: seq<Byte>)
    returns (d: Config, k: Core)
    requires m <= |msg| <= 18 && |mem| == DATA_BYTES && msg == mem[..|msg|]
    requires Live(c) && c.s.pc == 0 && c.s.dataMem == mem && Attends(BitwiseProgram(|msg|), io, c)
    ensures AfterBlocks(BitwiseProgram(|msg|), io, c, d, k, 2 + 14 * m, mem, msg, m) && k.regs[2] == POLY8
    decreases m
  {
    hide BitwiseProgram, Attends;
    if m == 0 {
      d, k := BitwiseStart(|msg|, io, c, mem);
      assert msg[..0] == [];
      hide Reaches, AtCore;
    } else {
      var d1, k1 := BitwiseBlocks(msg, m - 1, io, c, mem);
      assert |k1.regs| == 4;
      hide AfterBlocks;
      d, k := BitwiseNext(msg, m - 1, io, c, mem, d1, k1);
    }
  }

  /** Bit by bit: from any registers, with the message at the start of the data region,
      the program halts having presented the running CRC-8 after every byte, if the host
      answers the waits the run comes to. */
  lemma BitwiseHalts(msg: seq<Byte>, io: Stimulus, c: Config) returns (d: Config)
    requires |msg| <= 18 && Live(c) && c.s.pc == 0 && msg == c.s.dataMem[..|msg|]
    requires Attends(BitwiseProgram(|msg|), io, c)
    ensures Reaches(BitwiseProgram(|msg|), io, c, d, Running8(msg, |msg|)) && d.s.halted
  {
    DataSize(c);
    hide *;
    var n, mem, prog := |msg|, c.s.dataMem, BitwiseProgram(|msg|);
    var d1, k := BitwiseBlocks(msg, n, io, c, mem);
    AfterParts(prog, io, c, d1, k, 2 + 14 * n, mem, msg, n);
    BitwiseHaltAt(n);
    d := HaltEnds(prog, io, d1, k, mem);
    ReachesThen(prog, io, c, d1, d, Running8(msg, n), []);
    assert Running8(msg, n) + [] == Running8(msg, n);
  }

  /** Some run of the program halts. */
  ghost predicate CanHalt(prog: Program, io: Stimulus, c: Config) {
    exists d: Config, outs: seq<Byte> :: Reaches(prog, io, c, d, outs) && d.s.halted
  }

  /** For every host whatever: what the program has presented at any point is an initial
      part of the running CRCs, it is all of them when the program halts, and it halts
      exactly if the host answers the waits the run comes to. */
  lemma BitwiseComputesCrc(msg: seq<Byte>, io: Stimulus, c: Config, d: Config, outs: seq<Byte>)
    requires |msg| <= 18 && Live(c) && c.s.pc == 0 && msg == c.s.dataMem[..|msg|]
    requires Reaches(BitwiseProgram(|msg|), io, c, d, outs)
    ensures outs <= Running8(msg, |msg|) && (d.s.halted ==> outs == Running8(msg, |msg|))
    ensures CanHalt(BitwiseProgram(|msg|), io, c) <==> Attends(BitwiseProgram(|msg|), io, c)
  {
    var prog, io' := BitwiseProgram(|msg|), Switched(io, d.t);
    hide Reaches, Attends, BitwiseProgram, Switched, Live;
    SomeHostAttends(prog, io, c, d, outs);
    var e := BitwiseHalts(msg, io', c);
    OutputsPrefix(prog, io', c, e, Running8(msg, |msg|), d, outs);
    if Attends(prog, io, c) {
      var h := BitwiseHalts(msg, io, c);
    }
    if CanHalt(prog, io, c) {
      var h: Config, all: seq<Byte> :| Reaches(prog, io, c, h, all) && h.s.halted;
      HaltsOnlyAttended(prog, io, c, h, all);
    }
  }

  // ------------------------------------------------------------ the table

  /** The data region of the table-driven program: the table, then the message. */
  predicate TableMemory(mem: seq<Byte>, msg: seq<Byte>) {
    |mem| == DATA_BYTES && |msg| <= 31 && mem[..256] == Table() && mem[256..256 + |msg|] == msg
  }

  lemma MemoryHolds(mem: seq<Byte>, msg: seq<Byte>, n: nat, crc: Byte)
    requires TableMemory(mem, msg) && n < |msg|
    ensures mem[256 + n] == msg[n] && 0 <= Xor(msg[n], crc) < 256 && mem[Xor(msg[n], crc)] == Absorb(crc, msg[n])
  {
    assert mem[256 + n] == mem[256..256 + |msg|][n];
    TableAbsorbs(crc, msg[n]);
    hide Xor, Table, Absorb;
    assert mem[Xor(msg[n], crc)] == mem[..256][Xor(msg[n], crc)];
  }

  /** Index with the difference of byte and register, and look up. */
  lemma RunLookup(prog: Program, io: Stimulus, c: Config, k: Core, mem: seq<Byte>, base: nat, n: nat, b: Byte, x: Byte)
    returns (d: Config, k': Core)
    requires AtCore(c, k, mem) && |mem| == DATA_BYTES && n < 256 && base + 8 < 511
    requires CodeAt(prog, base, TableBlock(n)) && k.pc == base && |k.regs| == 4 && mem[256 + n] == b
    requires x == Xor(b, k.regs[0])
    ensures AtCore(d, k', mem) && k'.pc == base + 3 && |k'.regs| == 4 && k'.regs[0] == mem[x]
    ensures Reaches(prog, io, c, d, [])
  {
    var code := TableBlock(n);
    assert code[0] == Load(1, 256 + n) && code[1] == XorReg(1, 0) && code[2] == LoadX(0, 1);
    AtCoreValid(c, k, mem);
    hide *;
    var k1, k2, k3 := LookupSteps(k, mem, n, b, x);
    ReachesSelf(prog, io, c);
    var c1 := BlockStep(prog, io, c, c, k, mem, base, code, 0);
    var c2 := BlockStep(prog, io, c, c1, k1, mem, base, code, 1);
    d := BlockStep(prog, io, c, c2, k2, mem, base, code, 2);
    k' := k3;
  }

  lemma AtCoreValid(c: Config, k: Core, mem: seq<Byte>)
    requires AtCore(c, k, mem)
    ensures Valid(c.s)
  {
  }

  /** Load the message byte, add the register, look the sum up. */
  lemma LookupSteps(k: Core, mem: seq<Byte>, n: nat, b: Byte, x: Byte) returns (k1: Core, k2: Core, k3: Core)
    requires |mem| == DATA_BYTES && n < 256 && |k.regs| == 4 && k.pc + 2 < 511 && mem[256 + n] == b
    requires x == Xor(b, k.regs[0])
    ensures CoreOk(k, mem) && InRange(Load(1, 256 + n)) && Plain(Load(1, 256 + n))
    ensures k1 == CoreStep(k, Load(1, 256 + n), mem)
    ensures CoreOk(k1, mem) && InRange(XorReg(1, 0)) && Plain(XorReg(1, 0)) && k2 == CoreStep(k1, XorReg(1, 0), mem)
    ensures CoreOk(k2, mem) && InRange(LoadX(0, 1)) && Plain(LoadX(0, 1)) && k3 == CoreStep(k2, LoadX(0, 1), mem)
    ensures k1.pc == k.pc + 1 && k2.pc == k.pc + 2 && k3.pc == k.pc + 3 && |k3.regs| == 4 && k3.regs[0] == mem[x]
  {
    hide Xor;
    k1 := CoreStep(k, Load(1, 256 + n), mem);
    k2 := CoreStep(k1, XorReg(1, 0), mem);
    assert k2.regs[1] == x;
    k3 := CoreStep(k2, LoadX(0, 1), mem);
  }

  lemma RunTableBlock(prog: Program, io: Stimulus, c: Config, k: Core, mem: seq<Byte>, base: nat, n: nat,
                      msg: seq<Byte>, crc: Byte)
    returns (d: Config, k': Core)
    requires AtCore(c, k, mem) && TableMemory(mem, msg) && n < |msg| && base + 8 < 511 && Attends(prog, io, c)
    requires CodeAt(prog, base, TableBlock(n)) && k.pc == base && |k.regs| == 4 && k.regs[0] == crc
    ensures AtCore(d, k', mem) && k'.pc == base + 8 && |k'.regs| == 4 && k'.regs[0] == Absorb(crc, msg[n])
    ensures Reaches(prog, io, c, d, [Absorb(crc, msg[n])])
  {
    MemoryHolds(mem, msg, n, crc);
    SendAt(prog, base, TableBlock(n), 3, 0);
    assert n < 256 && |mem| == DATA_BYTES;
    hide TableBlock, TableMemory, CodeAt, Reaches, Live, Xor, Absorb, Attends, AtCore;
    var c3, k3 := RunLookup(prog, io, c, k, mem, base, n, msg[n], Xor(msg[n], crc));
    AttendsLater(prog, io, c, c3, []);
    var flag;
    d, flag := SendStep(prog, io, c3, k3, mem, 0);
    k' := Core(base + 8, k3.regs, flag);
    ReachesThen(prog, io, c, c3, d, [], [k'.regs[0]]);
    assert [] + [k'.regs[0]] == [k'.regs[0]];
  }

  lemma TableStart(n: nat, io: Stimulus, c: Config, mem: seq<Byte>) returns (d: Config, k: Core)
    requires n <= 31 && |mem| == DATA_BYTES && Live(c) && c.s.pc == 0 && c.s.dataMem == mem
    ensures Reaches(TableProgram(n), io, c, d, []) && AtCore(d, k, mem) && k.pc == 1 && |k.regs| == 4 && k.regs[0] == 0
  {
    TableHead(n);
    hide *;
    d, k := RunTableHead(TableProgram(n), io, c, mem);
  }

  lemma TableHead(n: nat)
    requires n <= 31
    ensures CodeAt(TableProgram(n), 0, [Ldi(0, 0)])
  {
    var head := TableCode(0);
    TableEncodable(n);
    TablePrefix(n, 0);
    assert TableCode(n)[0..1] == head;
    BlockInProgram(TableCode(n), 0, head);
    assert head == [Ldi(0, 0)];
    hide CodeAt, TableCode, Assembled;
  }

  lemma RunTableHead(prog: Program, io: Stimulus, c: Config, mem: seq<Byte>) returns (d: Config, k: Core)
    requires |mem| == DATA_BYTES && Live(c) && c.s.pc == 0 && c.s.dataMem == mem
    requires CodeAt(prog, 0, [Ldi(0, 0)])
    ensures Reaches(prog, io, c, d, []) && AtCore(d, k, mem) && k.pc == 1 && |k.regs| == 4 && k.regs[0] == 0
  {
    var head := [Ldi(0, 0)];
    ReachesSelf(prog, io, c);
    k := Core(0, c.s.regs, c.s.flag);
    hide CodeAt, Reaches;
    d := BlockStep(prog, io, c, c, k, mem, 0, head, 0);
    k := CoreStep(k, head[0], mem);
  }

  lemma TableNext(msg: seq<Byte>, m: nat, io: Stimulus, c: Config, mem: seq<Byte>, d1: Config, k1: Core)
    returns (d: Config, k: Core)
    requires m < |msg| <= 31 && TableMemory(mem, msg) && Attends(TableProgram(|msg|), io, c)
    requires AfterBlocks(TableProgram(|msg|), io, c, d1, k1, 1 + 8 * m, mem, msg, m)
    ensures AfterBlocks(TableProgram(|msg|), io, c, d, k, 1 + 8 * (m + 1), mem, msg, m + 1)
  {
    TableBlockAt(|msg|, m);
    hide TableMemory, TableProgram, Table, Reaches, CodeAt, Live, AtCore, Attends, TableBlock, Absorb, Running8, Crc;
    AttendsLater(TableProgram(|msg|), io, c, d1, Running8(msg, m));
    d, k := RunTableBlock(TableProgram(|msg|), io, d1, k1, mem, 1 + 8 * m, m, msg, Crc(msg[..m]));
    AnotherBlock(TableProgram(|msg|), io, c, d1, d, msg, m, k.regs[0]);
  }

  lemma {:induction false} TableBlocks(msg: seq<Byte>, m: nat, io: Stimulus, c: Config, mem: seq<Byte>)
    returns (d: Config, k: Core)
    requires m <= |msg| <= 31 && TableMemory(mem, msg) && |mem| == DATA_BYTES
    requires Live(c) && c.s.pc == 0 && c.s.dataMem == mem && Attends(TableProgram(|msg|), io, c)
    ensures AfterBlocks(TableProgram(|msg|), io, c, d, k, 1 + 8 * m, mem, msg, m)
    decreases m
  {
    hide TableMemory, TableProgram, Table, Attends;
    if m == 0 {
      d, k := TableStart(|msg|, io, c, mem);
      assert msg[..0] == [];
      hide Reaches, AtCore;
    } else {
      var d1, k1 := TableBlocks(msg, m - 1, io, c, mem);
      hide AfterBlocks;
      d, k := TableNext(msg, m - 1, io, c, mem, d1, k1);
    }
  }

  /** Through the table: the same bytes, from any registers, with the table and the
      message in the data region. */
  lemma TableHalts(msg: seq<Byte>, io: Stimulus, c: Config) returns (d: Config)
    requires Live(c) && c.s.pc == 0 && TableMemory(c.s.dataMem, msg) && Attends(TableProgram(|msg|), io, c)
    ensures Reaches(TableProgram(|msg|), io, c, d, Running8(msg, |msg|)) && d.s.halted
  {
    DataSize(c);
    hide *;
    var n, mem, prog := |msg|, c.s.dataMem, TableProgram(|msg|);
    var d1, k := TableBlocks(msg, n, io, c, mem);
    AfterParts(prog, io, c, d1, k, 1 + 8 * n, mem, msg, n);
    TableHaltAt(n);
    d := HaltEnds(prog, io, d1, k, mem);
    ReachesThen(prog, io, c, d1, d, Running8(msg, n), []);
    assert Running8(msg, n) + [] == Running8(msg, n);
  }

  /** And for every host whatever, as for the bitwise program. */
  lemma TableComputesCrc(msg: seq<Byte>, io: Stimulus, c: Config, d: Config, outs: seq<Byte>)
    requires Live(c) && c.s.pc == 0 && TableMemory(c.s.dataMem, msg)
    requires Reaches(TableProgram(|msg|), io, c, d, outs)
    ensures outs <= Running8(msg, |msg|) && (d.s.halted ==> outs == Running8(msg, |msg|))
    ensures CanHalt(TableProgram(|msg|), io, c) <==> Attends(TableProgram(|msg|), io, c)
  {
    var prog, io' := TableProgram(|msg|), Switched(io, d.t);
    hide Reaches, Attends, TableProgram, Switched, Live, Table;
    SomeHostAttends(prog, io, c, d, outs);
    var e := TableHalts(msg, io', c);
    OutputsPrefix(prog, io', c, e, Running8(msg, |msg|), d, outs);
    if Attends(prog, io, c) {
      var h := TableHalts(msg, io, c);
    }
    if CanHalt(prog, io, c) {
      var h: Config, all: seq<Byte> :| Reaches(prog, io, c, h, all) && h.s.halted;
      HaltsOnlyAttended(prog, io, c, h, all);
    }
  }

  // ------------------------------------------------------------ agreement

  /** The machine is deterministic, so a halting run has one output. */
  lemma OneOutput(prog: Program, io: Stimulus, c: Config, d: Config, d': Config, outs: seq<Byte>, outs': seq<Byte>)
    requires Reaches(prog, io, c, d, outs) && d.s.halted && Reaches(prog, io, c, d', outs') && d'.s.halted
    ensures outs == outs' && d == d'
  {
    var tr :| Path(prog, io, c, tr, d) && Outputs(prog, io, c, tr) == outs;
    var tr' :| Path(prog, io, c, tr', d') && Outputs(prog, io, c, tr') == outs';
    PathPrefix(prog, io, c, tr, d, tr', d');
    PathPrefix(prog, io, c, tr', d', tr, d);
    assert tr'[..|tr'|] == tr';
    assert tr == tr';
    assert tr[|tr'|..] == [];
  }

  /** However each is started and whatever its host does: on the same message, what one
      program has presented at any point and what the other has agree as far as both go,
      and when both have halted they are the same. */
  lemma ProgramsAgree(msg: seq<Byte>, io1: Stimulus, c1: Config, d1: Config, outs1: seq<Byte>,
                      io2: Stimulus, c2: Config, d2: Config, outs2: seq<Byte>)
    requires |msg| <= 18 && Live(c1) && c1.s.pc == 0 && msg == c1.s.dataMem[..|msg|]
    requires Live(c2) && c2.s.pc == 0 && TableMemory(c2.s.dataMem, msg)
    requires Reaches(BitwiseProgram(|msg|), io1, c1, d1, outs1)
    requires Reaches(TableProgram(|msg|), io2, c2, d2, outs2)
    ensures outs1 <= outs2 || outs2 <= outs1
    ensures d1.s.halted && d2.s.halted ==> outs1 == outs2
  {
    hide *;
    BitwiseComputesCrc(msg, io1, c1, d1, outs1);
    TableComputesCrc(msg, io2, c2, d2, outs2);
    BothPrefixes(outs1, outs2, Running8(msg, |msg|));
  }

  lemma BothPrefixes(a: seq<Byte>, b: seq<Byte>, all: seq<Byte>)
    requires a <= all && b <= all
    ensures a <= b || b <= a
  {
    assert a == all[..|a|] && b == all[..|b|];
  }
}
