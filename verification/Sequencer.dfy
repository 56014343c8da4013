/** The golden model's step as it is written: the fields of a state, assigned one after
    another, and a loop that walks a WAIT cycle by cycle. */
module Sequencer {
  import opened Bits
  import opened Isa
  import opened Machine

  class SequencerState {
    var pc: nat
    var regs: seq<Byte>
    var flag: bool
    var retaddr: nat
    var returnValid: bool
    var illegalOp: bool
    var callRetMisuse: bool
    var halted: bool
    var uoOut: Byte
    var dataMem: seq<Byte>
    var pinMode: seq<Mode>
    var pinDrv: seq<Level>

    ghost function View(): State
      reads this
    {
      State(pc, regs, flag, retaddr, returnValid, illegalOp, callRetMisuse, halted, uoOut, dataMem, pinMode, pinDrv)
    }

    constructor ()
      ensures View() == Reset()
    {
      pc, regs, flag, retaddr, returnValid := 0, [0, 0, 0, 0], false, 0, false;
      illegalOp, callRetMisuse, halted, uoOut := false, false, false, 0;
      dataMem, pinMode, pinDrv := seq(DATA_BYTES, _ => 0), seq(8, _ => SET_MODE_INPUT), seq(8, _ => 0);
    }

    /** WAIT: look at the pin now, and again each cycle until it matches or the time is
        up. A match on the last cycle counts as met. */
    method WaitFor(i: Instr, io: Stimulus, t: nat) returns (k: nat, ok: bool)
      requires i.Wait? && InRange(i)
      ensures ok ==> WaitFrom(io, t, i, 0) == k
      ensures !ok ==> WaitFrom(io, t, i, 0) == -1
    {
      k := 0;
      var target := i.mantissa * Unit(i.exponent);
      while k <= WAIT_HARD_CAP
        invariant 0 <= k <= WAIT_HARD_CAP + 1 && WaitFrom(io, t, i, k) == WaitFrom(io, t, i, 0)
        decreases WAIT_HARD_CAP + 1 - k
      {
        var met := Bit(io(t + k).uio, i.pin) == i.level;
        if met || (i.mantissa != 0 && k >= target) {
          return k, true;
        }
        k := k + 1;
      }
      ok := false;
    }

    /** One instruction, in place; false when a WAIT never resolves. */
    method Step(w: Word, io: Stimulus, t: nat) returns (cycles: nat, ok: bool)
      requires Valid(View())
      modifies this
      ensures ok ==> Machine.Step(old(View()), w, io, t) == Next(View(), cycles)
      ensures !ok ==> Machine.Step(old(View()), w, io, t) == Stuck && View() == old(View())
    {
      var i := Decode(w);
      hide Decode, Bit, Xor, DataEffect, WaitFrom;
      cycles, ok := 3, true;
      var next := (pc + 1) % 512;
      if i.Halt? {
        halted := true;
      } else if i.Ret? || i.Branch? || i.Loop? {
        StepControl(i, io, t);
      } else if i.Delay? {
        cycles := 3 + i.mantissa * Unit(i.exponent);
        pc := next;
      } else if i.Wait? {
        var k;
        k, ok := WaitFor(i, io, t);
        if ok {
          flag := Bit(io(t + k).uio, i.pin) != i.level;
          cycles := 3 + k;
          pc := next;
        }
      } else {
        if Writes(i) {
          StepWrite(i, io(t));
        } else {
          StepData(i, io(t));
        }
        pc := next;
      }
    }

    /** The instructions that choose the next address. */
    method StepControl(i: Instr, io: Stimulus, t: nat)
      requires Valid(View()) && InRange(i) && (i.Ret? || i.Branch? || i.Loop?)
      modifies this
      ensures Exec(old(View()), i, io, t) == Next(View(), 3)
    {
      hide DataEffect, WaitFrom;
      var next := (pc + 1) % 512;
      if i.Ret? {
        next := retaddr;
        if !returnValid {
          callRetMisuse := true;
        }
        returnValid := false;
      } else if i.Branch? {
        var taken := i.cond == COND_JMP || (i.cond == COND_BEQ && flag) || (i.cond == COND_BNE && !flag)
          || i.cond == COND_CALL;
        if i.cond == COND_CALL {
          if returnValid {
            callRetMisuse := true;
          }
          retaddr := (pc + 1) % 512;
          returnValid := true;
        }
        if taken {
          next := i.addr;
        }
      } else {
        var before: int := regs[i.rd];
        var result := (before - 1) % 256;
        regs := regs[i.rd := result];
        if result != 0 {
          next := i.addr;
        }
      }
      pc := next;
    }

    /** The instructions that write a register. */
    method StepWrite(i: Instr, pins: Sample)
      requires Valid(View()) && InRange(i) && IsData(i) && Writes(i)
      modifies this
      ensures View() == DataEffect(old(View()), i, pins)
    {
      hide Bit, Xor, WithBit;
      var v: Byte := 0;
      match i {
        case Ldi(_, value) => v := value;
        case In(_) => v := pins.ui;
        case Shift(rd, dir) =>
          var a: int := regs[rd];
          v := if dir == SHIFT_LEFT then (a * 2) % 256 else a / 2;
        case InBit(rd, pin, sel) => v := WithBit(regs[rd], sel, Bit(pins.uio, pin));
        case Load(_, offset) => v := dataMem[offset];
        case LoadX(_, rs) => v := dataMem[regs[rs]];
        case XorReg(rd, rs) =>
          XorByte(regs[rd], regs[rs]);
          v := Xor(regs[rd], regs[rs]);
        case Add(rd, rs) =>
          var a: int, b: int := regs[rd], regs[rs];
          v := (a + b) % 256;
          flag := a + b > 255;
      }
      assert v == Result(old(View()), i, pins);
      hide Result;
      regs := regs[i.rd := v];
    }

    /** The instructions that write a pin, the output port, memory or a flag. */
    method StepData(i: Instr, pins: Sample)
      requires Valid(View()) && InRange(i) && IsData(i) && !Writes(i)
      modifies this
      ensures View() == DataEffect(old(View()), i, pins)
    {
      hide Bit, Result;
      match i {
        case Nop =>
        case SetPin(mode, pin, level) =>
          if mode != SET_MODE_LEAVE {
            pinMode := pinMode[pin := mode];
          }
          pinDrv := pinDrv[pin := level];
        case Out(rd) => uoOut := regs[rd];
        case TestBit(rd, bit) => flag := Bit(regs[rd], bit) == 1;
        case OutBit(rd, pin, sel) =>
          pinDrv := pinDrv[pin := if sel == BITSEL_BIT7 then Bit(regs[rd], 7) else regs[rd] % 2];
        case Store(rd, offset) => dataMem := dataMem[offset := regs[rd]];
        case Cmp(rd, rs) => flag := regs[rd] == regs[rs];
        case Reserved(_) => illegalOp := true;
      }
    }
  }
}
