/** What each instruction does, said of the state before and after: bits, bytes and pins, and
    what one instruction undoes of another. */
module DataLaws {
  import opened Bits
  import opened Isa
  import opened Machine

  // ------------------------------------------------------------ bits of a byte

  lemma {:induction false} SameLow(x: nat, y: nat, n: nat, i: nat)
    requires i < n && x % Pow2(n) == y % Pow2(n)
    ensures Bit(x, i) == Bit(y, i)
    decreases n
  {
    ModHalf(x, Pow2(n - 1));
    ModHalf(y, Pow2(n - 1));
    if i > 0 {
      SameLow(x / 2, y / 2, n - 1, i - 1);
    }
  }

  lemma Powers()
    ensures Pow2(7) == 128 && Pow2(8) == 256
  {
    assert Pow2(4) == 16;
  }

  lemma ShiftedLeft(v: Byte, j: nat)
    requires j < 8
    ensures Bit(v * 2 % 256, j) == if j == 0 then 0 else Bit(v, j - 1)
  {
    Powers();
    SameLow(v * 2 % 256, 2 * v, 8, j);
    assert j > 0 ==> Bit(2 * v, j) == Bit(2 * v / 2, j - 1);
  }

  lemma ShiftedRight(v: Byte, j: nat)
    requires j < 8
    ensures Bit(v / 2, j) == if j == 7 then 0 else Bit(v, j + 1)
  {
    Powers();
    assert Bit(v, j + 1) == Bit(v / 2, j);
    BitIsQuotient(v / 2, 7);
  }

  /** The end bit replaced and the others kept. */
  lemma EndReplaced(v: Byte, sel: nat, bit: nat, j: nat)
    requires sel < 2 && bit < 2 && j < 8
    ensures Bit(WithBit(v, sel, bit), j) == if j == (if sel == 1 then 7 else 0) then bit else Bit(v, j)
  {
    hide Bit;
    if sel == 1 {
      TopReplaced(v, bit, j);
    } else {
      LowReplaced(v, bit, j);
    }
  }

  lemma TopReplaced(v: Byte, bit: nat, j: nat)
    requires bit < 2 && j < 8
    ensures Bit(bit * 128 + v % 128, j) == if j == 7 then bit else Bit(v, j)
  {
    hide Bit;
    Powers();
    var w := bit * 128 + v % 128;
    if j == 7 {
      BitIsQuotient(w, 7);
    } else {
      SameLow(w, v, 7, j);
    }
  }

  lemma LowReplaced(v: Byte, bit: nat, j: nat)
    requires bit < 2 && j < 8
    ensures Bit(v - v % 2 + bit, j) == if j == 0 then bit else Bit(v, j)
  {
    var w := v - v % 2 + bit;
    assert w / 2 == v / 2;
  }

  // ------------------------------------------------------------ one instruction

  function Next9(pc: nat): nat {
    (pc + 1) % 512
  }

  /** `r` is the state after `s` when a data instruction ran: three cycles, the next
      address, and nothing but registers, flag, pins, output, memory and the illegal flag
      touched. */
  predicate Ran(s: State, o: Outcome) {
    && o.Next? && o.cycles == 3 && Valid(o.state)
    && o.state == s.(pc := Next9(s.pc), regs := o.state.regs, flag := o.state.flag, uoOut := o.state.uoOut,
                     dataMem := o.state.dataMem, pinMode := o.state.pinMode, pinDrv := o.state.pinDrv,
                     illegalOp := o.state.illegalOp)
  }

  /** Only this register may differ. */
  predicate OnlyReg(s: State, r: State, rd: nat) {
    && |s.regs| == |r.regs| == 4 && (forall k :: 0 <= k < 4 && k != rd ==> r.regs[k] == s.regs[k])
    && r == s.(pc := r.pc, regs := r.regs)
  }

  /** OUTB: the pin takes bit 7 or bit 0 of the register. */
  lemma OutBitLaw(s: State, w: Word, io: Stimulus, t: nat, rd: nat, pin: nat, sel: nat)
    requires Valid(s) && Decode(w) == OutBit(rd, pin, sel)
    ensures rd < 4 && pin < 8
    ensures var o := Step(s, w, io, t);
            && Ran(s, o) && o.state == s.(pc := Next9(s.pc), pinDrv := o.state.pinDrv)
            && o.state.pinDrv[pin] == Bit(s.regs[rd], if sel == 1 then 7 else 0)
            && forall q :: 0 <= q < 8 && q != pin ==> o.state.pinDrv[q] == s.pinDrv[q]
  {
    hide Decode;
  }

  /** INB: one end bit of the register takes the pin, the other seven stay. */
  lemma InBitLaw(s: State, w: Word, io: Stimulus, t: nat, rd: nat, pin: nat, sel: nat)
    requires Valid(s) && Decode(w) == InBit(rd, pin, sel)
    ensures rd < 4 && pin < 8
    ensures var o, end := Step(s, w, io, t), if sel == 1 then 7 else 0;
            && Ran(s, o) && OnlyReg(s, o.state, rd)
            && Bit(o.state.regs[rd], end) == Bit(io(t).uio, pin)
            && forall j :: 0 <= j < 8 && j != end ==> Bit(o.state.regs[rd], j) == Bit(s.regs[rd], j)
  {
    hide Decode;
    forall j | 0 <= j < 8
      ensures Bit(WithBit(s.regs[rd], sel, Bit(io(t).uio, pin)), j) ==
              if j == (if sel == 1 then 7 else 0) then Bit(io(t).uio, pin) else Bit(s.regs[rd], j)
    {
      EndReplaced(s.regs[rd], sel, Bit(io(t).uio, pin), j);
    }
    hide WithBit, Bit;
  }

  /** SET drives the pin and changes its mode unless told to leave it. */
  lemma SetLaw(s: State, w: Word, io: Stimulus, t: nat, mode: nat, pin: nat, level: nat)
    requires Valid(s) && Decode(w) == SetPin(mode, pin, level)
    ensures mode < 4 && pin < 8
    ensures var o := Step(s, w, io, t);
            && Ran(s, o)
            && o.state == s.(pc := Next9(s.pc), pinDrv := o.state.pinDrv, pinMode := o.state.pinMode)
            && o.state.pinDrv[pin] == level && o.state.pinMode[pin] == (if mode == 0 then s.pinMode[pin] else mode)
            && forall q :: 0 <= q < 8 && q != pin ==>
                 o.state.pinDrv[q] == s.pinDrv[q] && o.state.pinMode[q] == s.pinMode[q]
  {
    hide Decode;
  }

  /** STORE writes one byte of memory, LOAD and LOADX read one. */
  lemma StoreLaw(s: State, w: Word, io: Stimulus, t: nat, rd: nat, offset: nat)
    requires Valid(s) && Decode(w) == Store(rd, offset)
    ensures rd < 4 && offset < 512
    ensures var o := Step(s, w, io, t);
            && Ran(s, o) && o.state == s.(pc := Next9(s.pc), dataMem := o.state.dataMem)
            && o.state.dataMem[offset] == s.regs[rd]
            && forall k :: 0 <= k < 512 && k != offset ==> o.state.dataMem[k] == s.dataMem[k]
  {
    hide Decode;
  }

  lemma LoadLaw(s: State, w: Word, io: Stimulus, t: nat, rd: nat)
    requires Valid(s)
    requires Decode(w).Load? || Decode(w).LoadX?
    requires Decode(w).rd == rd
    ensures rd < 4
    ensures var o, i := Step(s, w, io, t), Decode(w);
            && Ran(s, o) && OnlyReg(s, o.state, rd)
            && o.state.regs[rd] == s.dataMem[if i.Load? then i.offset else s.regs[i.rs]]
  {
    hide Decode;
  }

  /** A byte stored is the byte loaded back, and whatever else is loaded was not changed. */
  lemma StoreThenLoad(s: State, w: Word, v: Word, io: Stimulus, t: nat, u: nat, rd: nat, rs: nat, offset: nat,
                      other: nat)
    requires Valid(s) && Decode(w) == Store(rd, offset) && Decode(v) == Load(rs, other)
    ensures rd < 4 && rs < 4 && offset < 512 && other < 512
    ensures var o := Step(s, w, io, t);
            && o.Next?
            && var p := Step(o.state, v, io, u);
               p.Next? && p.state.regs[rs] == if other == offset then s.regs[rd] else s.dataMem[other]
  {
    StoreLaw(s, w, io, t, rd, offset);
    LoadLaw(Step(s, w, io, t).state, v, io, u, rs);
    hide Decode, Step;
  }

  /** What was sampled into one end of a register is driven out again from that end. */
  lemma InThenOut(s: State, w: Word, v: Word, io: Stimulus, t: nat, u: nat, rd: nat, pin: nat, out: nat, sel: nat)
    requires Valid(s) && Decode(w) == InBit(rd, pin, sel) && Decode(v) == OutBit(rd, out, sel)
    ensures rd < 4 && pin < 8 && out < 8
    ensures var o := Step(s, w, io, t);
            && o.Next?
            && var p := Step(o.state, v, io, u); p.Next? && p.state.pinDrv[out] == Bit(io(t).uio, pin)
  {
    InBitLaw(s, w, io, t, rd, pin, sel);
    OutBitLaw(Step(s, w, io, t).state, v, io, u, rd, out, sel);
    hide Decode, Step, Bit;
  }

  /** SHIFT moves every bit one place and fills with zero. */
  lemma ShiftLaw(s: State, w: Word, io: Stimulus, t: nat, rd: nat, dir: nat)
    requires Valid(s) && Decode(w) == Shift(rd, dir)
    ensures rd < 4 && dir < 2
    ensures var o := Step(s, w, io, t);
            && Ran(s, o) && OnlyReg(s, o.state, rd)
            && forall j :: 0 <= j < 8 ==>
                 Bit(o.state.regs[rd], j) ==
                 if dir == 0 then (if j == 0 then 0 else Bit(s.regs[rd], j - 1))
                 else (if j == 7 then 0 else Bit(s.regs[rd], j + 1))
  {
    hide Decode, Bit;
    var v: nat := s.regs[rd];
    forall j | 0 <= j < 8
      ensures Bit(v * 2 % 256, j) == if j == 0 then 0 else Bit(v, j - 1)
      ensures Bit(v / 2, j) == if j == 7 then 0 else Bit(v, j + 1)
    {
      ShiftedLeft(s.regs[rd], j);
      ShiftedRight(s.regs[rd], j);
    }
  }

  /** Left and back again clears bit 7 alone, right and back bit 0 alone. */
  lemma ShiftBack(s: State, w: Word, v: Word, io: Stimulus, t: nat, u: nat, rd: nat, dir: nat, j: nat)
    requires Valid(s) && dir < 2 && Decode(w) == Shift(rd, dir) && Decode(v) == Shift(rd, 1 - dir) && j < 8
    ensures rd < 4
    ensures var o := Step(s, w, io, t);
            && o.Next?
            && var p := Step(o.state, v, io, u);
               p.Next? && Bit(p.state.regs[rd], j) == if j == (if dir == 0 then 7 else 0) then 0 else Bit(s.regs[rd], j)
  {
    ShiftLaw(s, w, io, t, rd, dir);
    ShiftLaw(Step(s, w, io, t).state, v, io, u, rd, 1 - dir);
    hide Decode, Step, Bit;
  }

  /** XOR adds bit by bit, and the same XOR again takes it back. */
  lemma XorLaw(s: State, w: Word, io: Stimulus, t: nat, rd: nat, rs: nat)
    requires Valid(s) && Decode(w) == XorReg(rd, rs)
    ensures rd < 4 && rs < 4
    ensures var o := Step(s, w, io, t);
            && Ran(s, o) && OnlyReg(s, o.state, rd)
            && forall j: nat :: Bit(o.state.regs[rd], j) == (Bit(s.regs[rd], j) + Bit(s.regs[rs], j)) % 2
  {
    hide Decode, Bit, Xor;
    forall j: nat ensures Bit(Xor(s.regs[rd], s.regs[rs]), j) == (Bit(s.regs[rd], j) + Bit(s.regs[rs], j)) % 2 {
      XorBit(s.regs[rd], s.regs[rs], j);
    }
  }

  /** ADD loses nothing: the flag is the ninth bit of the sum. */
  lemma AddLaw(s: State, w: Word, io: Stimulus, t: nat, rd: nat, rs: nat)
    requires Valid(s) && Decode(w) == Add(rd, rs)
    ensures rd < 4 && rs < 4
    ensures var o := Step(s, w, io, t); var a: int, b: int := s.regs[rd], s.regs[rs];
            && Ran(s, o) && OnlyReg(s.(flag := o.state.flag), o.state, rd)
            && var sum: int := o.state.regs[rd]; sum + (if o.state.flag then 256 else 0) == a + b
  {
    hide Decode;
  }

  /** LDI, IN and OUT move a byte. */
  lemma MoveLaws(s: State, w: Word, io: Stimulus, t: nat)
    requires Valid(s)
    ensures var o, i := Step(s, w, io, t), Decode(w);
            && (i.Ldi? ==> Ran(s, o) && OnlyReg(s, o.state, i.rd) && o.state.regs[i.rd] == i.value)
            && (i.In? ==> Ran(s, o) && OnlyReg(s, o.state, i.rd) && o.state.regs[i.rd] == io(t).ui)
            && (i.Out? ==> o == Next(s.(pc := Next9(s.pc), uoOut := s.regs[i.rd]), 3))
  {
    hide Decode, Bit;
    if Writes(Decode(w)) {
      assert Decode(w).Ldi? || Decode(w).In? ==> Ran(s, Step(s, w, io, t));
    }
  }

  /** CMP and TEST set the flag; NOP and the reserved opcodes do nothing but, for these,
      raise the sticky flag. */
  lemma FlagLaws(s: State, w: Word, io: Stimulus, t: nat)
    requires Valid(s)
    ensures var o, i := Step(s, w, io, t), Decode(w);
            && (i.Cmp? ==> o == Next(s.(pc := Next9(s.pc), flag := s.regs[i.rd] == s.regs[i.rs]), 3))
            && (i.TestBit? ==> o == Next(s.(pc := Next9(s.pc), flag := Bit(s.regs[i.rd], i.bit) == 1), 3))
            && (i.Nop? ==> o == Next(s.(pc := Next9(s.pc)), 3))
            && (i.Reserved? ==> o == Next(s.(pc := Next9(s.pc), illegalOp := true), 3))
  {
    hide Decode, Bit, Result;
  }

  // ------------------------------------------------------------ control

  /** HALT stops where it stands. JMP goes; BEQ goes if the flag is set and BNE if not. */
  lemma BranchLaws(s: State, w: Word, io: Stimulus, t: nat)
    requires Valid(s)
    ensures var o, i := Step(s, w, io, t), Decode(w);
            && (i.Halt? ==> o == Next(s.(halted := true), 3))
            && (i.Branch? && i.cond == 0 ==> o == Next(s.(pc := i.addr), 3))
            && (i.Branch? && i.cond == 1 ==> o == Next(s.(pc := if s.flag then i.addr else Next9(s.pc)), 3))
            && (i.Branch? && i.cond == 2 ==> o == Next(s.(pc := if s.flag then Next9(s.pc) else i.addr), 3))
  {
    hide Decode;
  }

  /** CALL leaves the next address behind and RET comes back to it; either is misuse exactly
      if a return was, or was not, pending. */
  lemma CallLaws(s: State, w: Word, io: Stimulus, t: nat)
    requires Valid(s)
    ensures var o, i := Step(s, w, io, t), Decode(w);
            && (i.Branch? && i.cond == 3 ==>
                  o == Next(s.(pc := i.addr, retaddr := Next9(s.pc), returnValid := true,
                               callRetMisuse := s.callRetMisuse || s.returnValid), 3))
            && (i.Ret? ==>
                  o == Next(s.(pc := s.retaddr, returnValid := false,
                               callRetMisuse := s.callRetMisuse || !s.returnValid), 3))
  {
    hide Decode;
  }

  lemma CallThenReturn(s: State, w: Word, v: Word, io: Stimulus, t: nat, u: nat)
    requires Valid(s) && Decode(w).Branch? && Decode(w).cond == 3 && Decode(v).Ret? && !s.returnValid
    ensures var o := Step(s, w, io, t);
            && o.Next?
            && Step(o.state, v, io, u) == Next(s.(pc := Next9(s.pc), retaddr := Next9(s.pc)), 3)
  {
    CallLaws(s, w, io, t);
    CallLaws(Step(s, w, io, t).state, v, io, u);
    hide Decode, Step;
  }

  /** LOOP counts its register down modulo 256 and goes back unless it has reached zero. */
  lemma LoopLaw(s: State, w: Word, io: Stimulus, t: nat, addr: nat, rd: nat)
    requires Valid(s) && Decode(w) == Loop(addr, rd)
    ensures rd < 4
    ensures var o := Step(s, w, io, t); var v: int := s.regs[rd];
            && o.Next? && o.cycles == 3 && OnlyReg(s, o.state, rd)
            && o.state.regs[rd] == (if v == 0 then 255 else v - 1)
            && o.state.pc == (if v == 1 then Next9(s.pc) else addr)
  {
    hide Decode;
  }

  /** DELAY takes its mantissa times 1, 32, 1024 or 32768 extra cycles. */
  lemma DelayLaw(s: State, w: Word, io: Stimulus, t: nat, mantissa: nat, exponent: nat)
    requires Valid(s) && Decode(w) == Delay(mantissa, exponent)
    ensures Step(s, w, io, t) == Next(s.(pc := Next9(s.pc)), 3 + mantissa * Pow2(5 * exponent))
  {
    hide Decode;
    UnitPower(exponent);
    hide Unit, Pow2;
  }

  /** The pin, `j` cycles from `t` on. */
  function Seen(io: Stimulus, t: nat, pin: nat, j: nat): nat {
    Bit(io(t + j).uio, pin)
  }

  lemma UnitPower(exponent: nat)
    requires exponent < 4
    ensures Unit(exponent) == Pow2(5 * exponent)
  {
    assert Pow2(5) == 32;
    assert Pow2(10) == 1024;
    assert Pow2(15) == 32768;
  }

  /** What a WAIT may come to: it ends at the first cycle with the level, or, if it has a
      limit, at the limit, and it is stuck only if neither comes within the hard cap. */
  ghost predicate Waited(s: State, io: Stimulus, t: nat, pin: nat, level: nat, timed: bool, limit: nat, o: Outcome) {
    match o
    case Stuck =>
      (forall j: nat :: j <= WAIT_HARD_CAP ==> Seen(io, t, pin, j) != level) && (timed ==> limit > WAIT_HARD_CAP)
    case Next(r, cycles) =>
      && cycles >= 3
      && var k: nat := cycles - 3;
         && r == s.(pc := Next9(s.pc), flag := Seen(io, t, pin, k) != level)
         && (forall j: nat :: j < k ==> Seen(io, t, pin, j) != level)
         && (timed ==> k <= limit) && (Seen(io, t, pin, k) == level || (timed && k == limit))
  }

  lemma WaitOutcome(s: State, w: Word, io: Stimulus, t: nat, pin: nat, level: nat, mantissa: nat, exponent: nat)
    requires Valid(s) && Decode(w) == Wait(pin, level, mantissa, exponent)
    ensures Waited(s, io, t, pin, level, mantissa != 0, mantissa * Pow2(5 * exponent), Step(s, w, io, t))
  {
    hide Decode, Bit, Pow2, Unit, WaitFrom, Seen;
    var i := Decode(w);
    WaitEnds(i, io, t);
    assert mantissa * Unit(exponent) == mantissa * Pow2(5 * exponent) by { UnitPower(exponent); }
    assert Seen(io, t, pin, WAIT_HARD_CAP) == Seen(io, t, pin, WAIT_HARD_CAP);
  }

  /** The cycle the machine finds is the first with the level, or the limit. */
  lemma WaitEnds(i: Instr, io: Stimulus, t: nat)
    requires i.Wait? && InRange(i)
    ensures var k, limit := WaitFrom(io, t, i, 0), i.mantissa * Unit(i.exponent);
            if k >= 0 then
              && (Met(io, t + k, i.pin, i.level) <==> Seen(io, t, i.pin, k) == i.level)
              && (forall j: nat :: j < k ==> Seen(io, t, i.pin, j) != i.level)
              && (i.mantissa != 0 ==> k <= limit)
              && (Seen(io, t, i.pin, k) == i.level || (i.mantissa != 0 && k == limit))
            else
              && (forall j: nat :: j <= WAIT_HARD_CAP ==> Seen(io, t, i.pin, j) != i.level)
              && (i.mantissa != 0 ==> limit > WAIT_HARD_CAP)
  {
    hide Bit, Unit;
    var k := WaitFrom(io, t, i, 0);
    var limit: int := i.mantissa * Unit(i.exponent);
    hide WaitFrom;
    var last := if k >= 0 then k - 1 else WAIT_HARD_CAP;
    forall j: nat | j <= last ensures Seen(io, t, i.pin, j) != i.level && (i.mantissa != 0 ==> Before(j, limit)) {
      assert !WaitDone(io, t, i, j);
    }
    assert last >= 0 && i.mantissa != 0 ==> Before(last, limit);
    if k >= 0 {
      assert WaitDone(io, t, i, k);
    }
  }

  predicate Before(j: int, limit: int) {
    j < limit
  }
}
