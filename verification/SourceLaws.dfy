/** What an assembled source does, line by line: the machine's step at each address, said of
    the mnemonic, the operands, the labels and the state. */
module SourceLaws {
  import opened Bits
  import opened Isa
  import opened Machine
  import opened Runs
  import opened Wrappers
  import opened AsmSource
  import opened Assembler
  import opened DataLaws
  import EncodeCycles

  // ------------------------------------------------------------ expressions

  /** Subtraction undoes addition, division leaves a remainder of the divisor's sign, and a
      shift right undoes a shift left. */
  lemma ApplyLaws(a: int, b: int, c: int)
    ensures Apply(Plus, a, b).Ok? && Apply(Minus, Apply(Plus, a, b).value, b) == Ok(a)
    ensures Apply(Plus, 0, b) == Ok(b) && Apply(Plus, a + 1, b) == Ok(Apply(Plus, a, b).value + 1)
    ensures Apply(Times, 0, b) == Ok(0) && Apply(Times, a, b).Ok?
    ensures Apply(Times, a + 1, b) == Ok(Apply(Times, a, b).value + b)
    ensures Apply(Over, a, b).Ok? <==> b != 0
    ensures b != 0 ==> var r := a - Apply(Over, a, b).value * b; if b > 0 then 0 <= r < b else b < r <= 0
    ensures b >= 0 <==> Apply(Left, a, b).Ok?
    ensures b >= 0 <==> Apply(Right, a, b).Ok?
    ensures Apply(Left, a, 0) == Ok(a) && (b >= 0 ==> Apply(Left, a, b + 1) == Ok(2 * Apply(Left, a, b).value))
    ensures b >= 0 && 0 <= c < Pow2(b) ==> Apply(Right, Apply(Left, a, b).value + c, b) == Ok(a)
  {
    assert (a + 1) * b == a * b + b;
    if b >= 0 {
      assert Pow2(b + 1) == 2 * Pow2(b);
      assert a * (2 * Pow2(b)) == 2 * (a * Pow2(b));
      if 0 <= c < Pow2(b) {
        FloorUnique(a * Pow2(b) + c, Pow2(b), a, c);
      }
    }
    if b != 0 {
      FloorRemainder(a, b);
    }
  }

  lemma FloorUnique(x: int, d: nat, q: int, r: nat)
    requires d > 0 && x == d * q + r && r < d
    ensures FloorDiv(x, d) == q
  {
    assert d * (x / d) + x % d == x;
    var e := x / d - q;
    assert d * e == r - x % d;
    Multiples(d, e);
  }

  lemma Multiples(d: nat, e: int)
    ensures e >= 1 ==> d * e >= d
    ensures e <= -1 ==> d * e + d <= 0
  {
  }

  lemma FloorRemainder(a: int, b: int)
    requires b != 0
    ensures var r := a - FloorDiv(a, b) * b; if b > 0 then 0 <= r < b else b < r <= 0
  {
    var d := if b > 0 then b else -b;
    var x := if b > 0 then a else -a;
    assert x == d * (x / d) + x % d;
    var q := x / d;
    assert FloorDiv(a, b) == q;
    if b < 0 {
      assert q * b == -(d * q);
    } else {
      assert q * b == d * q;
    }
  }

  // ------------------------------------------------------------ legal lines

  predicate IsReg(o: Operand) {
    o.register.Some? && o.register.value < 4
  }

  function Reg4(o: Operand): (r: nat)
    ensures r < 4
  {
    if o.register.Some? && o.register.value < 4 then o.register.value else 0
  }

  predicate Lies(t: Tables, o: Operand, lo: int, hi: int) {
    Eval(o.expr, t.names).Ok? && lo <= Eval(o.expr, t.names).value < hi
  }

  /** The value of an operand that has one. */
  function Val(t: Tables, o: Operand): int {
    var v := Eval(o.expr, t.names);
    if v.Ok? then v.value else 0
  }

  predicate EndBit(t: Tables, o: Operand) {
    Lies(t, o, 0, 1) || Lies(t, o, 7, 8)
  }

  /** Which operands each mnemonic takes. */
  predicate Legal(t: Tables, mn: Mnemonic, ops: seq<Operand>) {
    match mn
    case NOP | HALT | RET => ops == []
    case JMP | BEQ | BNE | CALL => |ops| == 1 && ops[0].id in t.labels
    case LOOP => |ops| == 2 && ops[0].id in t.labels && IsReg(ops[1])
    case OUT | IN => |ops| == 1 && IsReg(ops[0])
    case CMP | LOADX | XOR | ADD => |ops| == 2 && IsReg(ops[0]) && IsReg(ops[1])
    case LDI => |ops| == 2 && IsReg(ops[0]) && Lies(t, ops[1], 0, 256)
    case TEST => |ops| == 2 && IsReg(ops[0]) && Lies(t, ops[1], 0, 8)
    case LOAD | STORE => |ops| == 2 && IsReg(ops[0]) && Lies(t, ops[1], 0, 512)
    case SHIFT => |ops| == 2 && IsReg(ops[0]) && ops[1].direction.Some? && ops[1].direction.value < 2
    case OUTB | INB => |ops| == 3 && IsReg(ops[0]) && Lies(t, ops[1], 0, 8) && EndBit(t, ops[2])
    case SET =>
      && (|ops| == 2 || (|ops| == 3 && ops[1].mode.Some? && ops[1].mode.value < 4))
      && Lies(t, ops[0], 0, 8) && Lies(t, ops[|ops| - 1], 0, 2)
    case DELAY =>
      if |ops| == 1 then Eval(ops[0].expr, t.names).Ok? && Val(t, ops[0]) >= 0
      else |ops| == 2 && Lies(t, ops[0], 0, 512) && Lies(t, ops[1], 0, 4)
    case WAIT =>
      && (|ops| == 2 || (|ops| == 3 && Eval(ops[2].expr, t.names).Ok? && Val(t, ops[2]) > 0))
      && Lies(t, ops[0], 0, 8) && Lies(t, ops[1], 0, 2)
    case UnknownWord => false
  }

  /** Exactly the lines with the right operands are accepted. */
  lemma LegalExactly(t: Tables, mn: Mnemonic, ops: seq<Operand>)
    ensures Check(t, mn, ops).Ok? <==> Legal(t, mn, ops)
  {
    hide Eval, EncodeCycles.Nearest;
    if mn.WAIT? && |ops| == 3 && Val(t, ops[2]) > 0 {
      EncodeCycles.NeverRoundsToZero(Val(t, ops[2]), 5);
    }
  }

  lemma {:induction false} AllLegalExactly(t: Tables, kept: seq<Placed>)
    ensures CheckAll(t, kept).Ok? <==> forall k :: 0 <= k < |kept| ==> Legal(t, kept[k].mn, kept[k].ops)
    decreases |kept|
  {
    hide Check, Legal;
    if kept != [] {
      LegalExactly(t, kept[0].mn, kept[0].ops);
      AllLegalExactly(t, kept[1..]);
      assert forall k :: 0 < k < |kept| ==> kept[k] == kept[1..][k - 1];
    }
  }

  // ------------------------------------------------------------ what a line does

  /** The operations that choose the next address. */
  predicate DoesJump(t: Tables, mn: Mnemonic, ops: seq<Operand>, s: State, o: Outcome)
    requires Valid(s) && Legal(t, mn, ops)
  {
    var next := Next9(s.pc);
    match mn
    case HALT => o == Next(s.(halted := true), 3)
    case RET =>
      o == Next(s.(pc := s.retaddr, returnValid := false, callRetMisuse := s.callRetMisuse || !s.returnValid), 3)
    case JMP => o == Next(s.(pc := t.labels[ops[0].id]), 3)
    case BEQ => o == Next(s.(pc := if s.flag then t.labels[ops[0].id] else next), 3)
    case BNE => o == Next(s.(pc := if s.flag then next else t.labels[ops[0].id]), 3)
    case CALL =>
      o == Next(s.(pc := t.labels[ops[0].id], retaddr := next, returnValid := true,
                   callRetMisuse := s.callRetMisuse || s.returnValid), 3)
    case LOOP =>
      var rd := Reg4(ops[1]);
      var v: int := s.regs[rd];
      && o.Next? && o.cycles == 3 && OnlyReg(s, o.state, rd)
      && o.state.regs[rd] == (if v == 0 then 255 else v - 1)
      && o.state.pc == (if v == 1 then next else t.labels[ops[0].id])
    case _ => true
  }

  /** The operations between registers and flag. */
  predicate DoesRegs(t: Tables, mn: Mnemonic, ops: seq<Operand>, s: State, o: Outcome)
    requires Valid(s) && Legal(t, mn, ops)
  {
    match mn
    case NOP => o == Next(s.(pc := Next9(s.pc)), 3)
    case LDI =>
      var rd := Reg4(ops[0]);
      Ran(s, o) && OnlyReg(s, o.state, rd) && o.state.regs[rd] == Val(t, ops[1])
    case TEST => o == Next(s.(pc := Next9(s.pc), flag := Bit(s.regs[Reg4(ops[0])], Val(t, ops[1])) == 1), 3)
    case CMP => o == Next(s.(pc := Next9(s.pc), flag := s.regs[Reg4(ops[0])] == s.regs[Reg4(ops[1])]), 3)
    case SHIFT =>
      var rd, left := Reg4(ops[0]), ops[1].direction.value == 0;
      && Ran(s, o) && OnlyReg(s, o.state, rd)
      && forall j :: 0 <= j < 8 ==>
           Bit(o.state.regs[rd], j) ==
           if left then (if j == 0 then 0 else Bit(s.regs[rd], j - 1))
             else (if j == 7 then 0 else Bit(s.regs[rd], j + 1))
    case ADD =>
      var rd := Reg4(ops[0]);
      var a: int, b: int := s.regs[rd], s.regs[Reg4(ops[1])];
      && Ran(s, o) && OnlyReg(s.(flag := o.state.flag), o.state, rd)
      && var sum: int := o.state.regs[rd]; sum + (if o.state.flag then 256 else 0) == a + b
    case _ => true
  }

  ghost predicate DoesXor(ops: seq<Operand>, s: State, o: Outcome)
    requires Valid(s) && |ops| == 2
  {
    var rd, rs := Reg4(ops[0]), Reg4(ops[1]);
    && Ran(s, o) && OnlyReg(s, o.state, rd)
    && forall j: nat :: Bit(o.state.regs[rd], j) == (Bit(s.regs[rd], j) + Bit(s.regs[rs], j)) % 2
  }

  /** The operations on memory, ports and pins. */
  predicate DoesPorts(t: Tables, mn: Mnemonic, ops: seq<Operand>, s: State, now: Sample, o: Outcome)
    requires Valid(s) && Legal(t, mn, ops)
  {
    match mn
    case OUT => o == Next(s.(pc := Next9(s.pc), uoOut := s.regs[Reg4(ops[0])]), 3)
    case IN =>
      var rd := Reg4(ops[0]);
      Ran(s, o) && OnlyReg(s, o.state, rd) && o.state.regs[rd] == now.ui
    case LOAD =>
      var rd := Reg4(ops[0]);
      Ran(s, o) && OnlyReg(s, o.state, rd) && o.state.regs[rd] == s.dataMem[Val(t, ops[1])]
    case LOADX =>
      var rd := Reg4(ops[0]);
      Ran(s, o) && OnlyReg(s, o.state, rd) && o.state.regs[rd] == s.dataMem[s.regs[Reg4(ops[1])]]
    case STORE =>
      && Ran(s, o) && o.state == s.(pc := Next9(s.pc), dataMem := o.state.dataMem)
      && o.state.dataMem[Val(t, ops[1])] == s.regs[Reg4(ops[0])]
      && forall k :: 0 <= k < 512 && k != Val(t, ops[1]) ==> o.state.dataMem[k] == s.dataMem[k]
    case SET =>
      var pin, level := Val(t, ops[0]), Val(t, ops[|ops| - 1]);
      var mode := if |ops| == 3 then ops[1].mode.value else 0;
      && Ran(s, o) && o.state == s.(pc := Next9(s.pc), pinDrv := o.state.pinDrv, pinMode := o.state.pinMode)
      && o.state.pinDrv[pin] == level && o.state.pinMode[pin] == (if mode == 0 then s.pinMode[pin] else mode)
      && forall q :: 0 <= q < 8 && q != pin ==>
           o.state.pinDrv[q] == s.pinDrv[q] && o.state.pinMode[q] == s.pinMode[q]
    case OUTB =>
      var pin := Val(t, ops[1]);
      && Ran(s, o) && o.state == s.(pc := Next9(s.pc), pinDrv := o.state.pinDrv)
      && o.state.pinDrv[pin] == Bit(s.regs[Reg4(ops[0])], Val(t, ops[2]))
      && forall q :: 0 <= q < 8 && q != pin ==> o.state.pinDrv[q] == s.pinDrv[q]
    case INB =>
      var rd, end := Reg4(ops[0]), Val(t, ops[2]);
      && Ran(s, o) && OnlyReg(s, o.state, rd) && Bit(o.state.regs[rd], end) == Bit(now.uio, Val(t, ops[1]))
      && forall j :: 0 <= j < 8 && j != end ==> Bit(o.state.regs[rd], j) == Bit(s.regs[rd], j)
    case _ => true
  }

  /** `n` is a time the encoding reaches, and none it reaches is closer to the one wanted. */
  ghost predicate NearestTime(want: int, bits: nat, n: nat) {
    && (exists m: nat, e: nat :: Reaches(m, e, bits, n))
    && forall m: nat, e: nat, other: nat :: Reaches(m, e, bits, other) ==> Far(n, want) <= Far(other, want)
  }

  predicate Reaches(m: nat, e: nat, bits: nat, n: nat) {
    m < Pow2(bits) && e < 4 && n == m * Pow2(5 * e)
  }

  function Far(a: int, b: int): int {
    if a < b then b - a else a - b
  }

  /** The operations that take time. */
  ghost predicate DoesTime(t: Tables, mn: Mnemonic, ops: seq<Operand>, s: State, io: Stimulus, now: nat, o: Outcome)
    requires Valid(s) && Legal(t, mn, ops)
  {
    match mn
    case DELAY =>
      && o.Next? && o.cycles >= 3 && o.state == s.(pc := Next9(s.pc))
      && if |ops| == 1 then NearestTime(Val(t, ops[0]), 9, o.cycles - 3)
         else o.cycles - 3 == Val(t, ops[0]) * Pow2(5 * Val(t, ops[1]))
    case WAIT =>
      var pin, level := Val(t, ops[0]), Val(t, ops[1]);
      if |ops| == 2 then Waited(s, io, now, pin, level, false, 0, o)
      else exists limit: nat ::
             NearestTime(Val(t, ops[2]), 5, limit) && limit > 0 && Waited(s, io, now, pin, level, true, limit, o)
    case _ => true
  }

  /** A legal line, done. */
  ghost predicate Does(t: Tables, mn: Mnemonic, ops: seq<Operand>, s: State, io: Stimulus, now: nat, o: Outcome) {
    && Valid(s) && Legal(t, mn, ops)
    && DoesJump(t, mn, ops, s, o) && DoesRegs(t, mn, ops, s, o) && DoesPorts(t, mn, ops, s, io(now), o)
    && (mn.XOR? ==> DoesXor(ops, s, o)) && DoesTime(t, mn, ops, s, io, now, o)
  }

  lemma JumpDone(t: Tables, mn: Mnemonic, ops: seq<Operand>, s: State, w: Word, io: Stimulus, now: nat)
    requires Valid(s) && Legal(t, mn, ops) && Check(t, mn, ops) == Ok(Decode(w))
    ensures DoesJump(t, mn, ops, s, Step(s, w, io, now))
  {
    BranchLaws(s, w, io, now);
    CallLaws(s, w, io, now);
    if mn.LOOP? {
      LoopLaw(s, w, io, now, Decode(w).addr, Decode(w).rd);
    }
    hide Step, Decode, Eval, DelayOf, WaitOf, SetOf, RegisterAnd, RegisterPinBit, TwoRegisters, OneRegister;
  }

  lemma RegsDone(t: Tables, mn: Mnemonic, ops: seq<Operand>, s: State, w: Word, io: Stimulus, now: nat)
    requires Valid(s) && Legal(t, mn, ops) && Check(t, mn, ops) == Ok(Decode(w))
    ensures DoesRegs(t, mn, ops, s, Step(s, w, io, now))
  {
    MoveLaws(s, w, io, now);
    FlagLaws(s, w, io, now);
    var i := Decode(w);
    if mn.SHIFT? {
      ShiftLaw(s, w, io, now, i.rd, i.dir);
    } else if mn.ADD? {
      AddLaw(s, w, io, now, i.rd, i.rs);
    }
    hide Step, Decode, Eval, Bit, DelayOf, WaitOf, SetOf, RegisterPinBit, OneRegister, Jump;
  }

  lemma XorDone(t: Tables, ops: seq<Operand>, s: State, w: Word, io: Stimulus, now: nat)
    requires Valid(s) && Legal(t, XOR, ops) && Check(t, XOR, ops) == Ok(Decode(w))
    ensures DoesXor(ops, s, Step(s, w, io, now))
  {
    XorLaw(s, w, io, now, Decode(w).rd, Decode(w).rs);
    hide Step, Decode, Bit;
  }

  lemma PortsDone(t: Tables, mn: Mnemonic, ops: seq<Operand>, s: State, w: Word, io: Stimulus, now: nat)
    requires Valid(s) && Legal(t, mn, ops) && Check(t, mn, ops) == Ok(Decode(w))
    ensures DoesPorts(t, mn, ops, s, io(now), Step(s, w, io, now))
  {
    hide Step, Decode, Eval, Bit, DelayOf, WaitOf, Jump;
    var i := Decode(w);
    if mn.LOAD? || mn.LOADX? {
      LoadLaw(s, w, io, now, i.rd);
    } else if mn.STORE? {
      StoreLaw(s, w, io, now, i.rd, i.offset);
    } else if mn.SET? {
      SetLaw(s, w, io, now, i.mode, i.pin, i.level);
    } else if mn.OUTB? {
      OutBitLaw(s, w, io, now, i.rd, i.pin, i.sel);
    } else if mn.INB? {
      InBitLaw(s, w, io, now, i.rd, i.pin, i.sel);
    } else if mn.OUT? || mn.IN? {
      MoveLaws(s, w, io, now);
    }
  }

  lemma ChosenNearest(want: nat, bits: nat)
    requires bits == 9 || bits == 5
    ensures var c := EncodeCycles.Nearest(want, bits);
            c.exponent < 4 && NearestTime(want, bits, c.mantissa * Pow2(5 * c.exponent))
  {
    var c := EncodeCycles.Nearest(want, bits);
    EncodeCycles.NearestIsOptimal(want, bits, EncodeCycles.Choice(0, 0, 0));
    hide EncodeCycles.Nearest;
    UnitPower(c.exponent);
    hide Pow2, Unit;
    assert Reaches(c.mantissa, c.exponent, bits, c.actual);
    forall m: nat, e: nat, other: nat | Reaches(m, e, bits, other) ensures Far(c.actual, want) <= Far(other, want) {
      UnitPower(e);
      EncodeCycles.NearestIsOptimal(want, bits, EncodeCycles.Choice(m, e, other));
    }
  }

  lemma TimeDone(t: Tables, mn: Mnemonic, ops: seq<Operand>, s: State, w: Word, io: Stimulus, now: nat)
    requires Valid(s) && Legal(t, mn, ops) && Check(t, mn, ops) == Ok(Decode(w))
    ensures DoesTime(t, mn, ops, s, io, now, Step(s, w, io, now))
  {
    hide Step, Decode, Eval, Waited, NearestTime, EncodeCycles.Nearest, Pow2;
    var i := Decode(w);
    if mn.DELAY? {
      DelayLaw(s, w, io, now, i.mantissa, i.exponent);
      if |ops| == 1 {
        ChosenNearest(Val(t, ops[0]), 9);
      }
    } else if mn.WAIT? {
      WaitOutcome(s, w, io, now, i.pin, i.level, i.mantissa, i.exponent);
      if |ops| == 3 {
        ChosenNearest(Val(t, ops[2]), 5);
        EncodeCycles.NeverRoundsToZero(Val(t, ops[2]), 5);
        assert i.mantissa * Pow2(5 * i.exponent) > 0;
      }
    }
  }

  /** At every address of an accepted source the machine does what the kept line numbered
      there says, in terms of its own operands and of the labels' line numbers. */
  lemma SourceDone(defines: Names, lines: seq<Line>, st: Scan, code: seq<Instr>, out: Assembled,
                   s: State, io: Stimulus, t: nat)
    requires Means(defines, lines, st, code, out) && Valid(s) && s.pc < |out.words|
    ensures Does(TablesOf(st), st.kept[s.pc].mn, st.kept[s.pc].ops, s, io, t, Step(s, Fetch(out.words, s.pc), io, t))
    ensures out.labels == TablesOf(st).labels
  {
    WordsRunTheSource(defines, lines, st, code, out, s, io, t);
    var tables, mn, ops, w := TablesOf(st), st.kept[s.pc].mn, st.kept[s.pc].ops, Fetch(out.words, s.pc);
    assert WordOf(out, code, s.pc);
    assert Decode(w) == code[s.pc];
    hide *;
    LegalExactly(tables, mn, ops);
    JumpDone(tables, mn, ops, s, w, io, t);
    RegsDone(tables, mn, ops, s, w, io, t);
    PortsDone(tables, mn, ops, s, w, io, t);
    if mn.XOR? {
      XorDone(tables, ops, s, w, io, t);
    }
    TimeDone(tables, mn, ops, s, w, io, t);
    DoneAll(tables, mn, ops, s, io, t, Step(s, w, io, t));
    LabelsKept(st, out, defines, lines, code);
  }

  lemma DoneAll(t: Tables, mn: Mnemonic, ops: seq<Operand>, s: State, io: Stimulus, now: nat, o: Outcome)
    requires Valid(s) && Legal(t, mn, ops)
    requires DoesJump(t, mn, ops, s, o) && DoesRegs(t, mn, ops, s, o) && DoesPorts(t, mn, ops, s, io(now), o)
    requires (mn.XOR? ==> |ops| == 2 && DoesXor(ops, s, o)) && DoesTime(t, mn, ops, s, io, now, o)
    ensures Does(t, mn, ops, s, io, now, o)
  {
    hide DoesJump, DoesRegs, DoesPorts, DoesXor, DoesTime;
  }

  lemma LabelsKept(st: Scan, out: Assembled, defines: Names, lines: seq<Line>, code: seq<Instr>)
    requires Means(defines, lines, st, code, out)
    ensures out.labels == TablesOf(st).labels
  {
    hide FirstPass, CheckAll, AllData;
  }

  // ------------------------------------------------------------ data and definitions

  /** A list of byte expressions is accepted exactly if each lies in a byte, and gives their
      values in order. */
  lemma {:induction false} BytesExactly(t: Tables, es: seq<Expr>)
    ensures Values(t, es).Ok? <==> forall k :: 0 <= k < |es| ==> ByteExpr(t, es[k])
    ensures Values(t, es).Ok? ==> |Values(t, es).value| == |es|
    ensures Values(t, es).Ok? ==> forall k :: 0 <= k < |es| ==> Eval(es[k], t.names) == Ok(Values(t, es).value[k])
    decreases |es|
  {
    hide Eval;
    if es != [] {
      BytesExactly(t, es[1..]);
      assert forall k :: 0 < k < |es| ==> es[k] == es[1..][k - 1];
    }
  }

  predicate ByteExpr(t: Tables, e: Expr) {
    Eval(e, t.names).Ok? && 0 <= Eval(e, t.names).value < 256
  }

  /** The data region is the items one after another. */
  lemma {:induction false} DataConcat(t: Tables, a: seq<DataItem>, b: seq<DataItem>)
    ensures var x, y, all := AllData(t, a), AllData(t, b), AllData(t, a + b);
            all == if x.Err? then x else if y.Err? then y else Ok(x.value + y.value)
    decreases |a|
  {
    hide DataOf;
    if a == [] {
      assert a + b == b;
      assert AllData(t, b).Ok? ==> [] + AllData(t, b).value == AllData(t, b).value;
    } else {
      DataConcat(t, a[1..], b);
      assert (a + b)[1..] == a[1..] + b;
      var d, x, y := DataOf(t, a[0]), AllData(t, a[1..]), AllData(t, b);
      if d.Ok? && x.Ok? && y.Ok? {
        assert d.value + (x.value + y.value) == (d.value + x.value) + y.value;
      }
    }
  }

  /** What the command line defines the source cannot change, nor refuse. */
  lemma CommandLineWins(defines: Names, lines: seq<Line>)
    requires FirstPass(Start(defines), defines.Keys, lines).Ok?
    ensures var st := FirstPass(Start(defines), defines.Keys, lines).value;
            forall id :: id in defines ==> id in st.consts && st.consts[id] == defines[id]
  {
    var first := Scan(Start(defines), map[], [], 0, [], [], false);
    ConstantsGrow(first, defines.Keys, lines);
    hide ScanLines;
  }
}
