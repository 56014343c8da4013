/** The assembler: label addresses, operand checking and encoding, and the boot image. */
module Assembler {
  import opened Bits
  import opened Isa
  import opened Machine
  import opened Wrappers
  import opened AsmSource
  import opened Runs
  import EncodeCycles

  // ------------------------------------------------------------ first pass

  /** The `.text` lines the conditionals leave, in order. */
  function Kept(st: Scan, cli: set<Id>, lines: seq<Line>): (texts: seq<Line>)
    ensures forall k :: 0 <= k < |texts| ==> texts[k].Text?
    decreases |lines|
  {
    if lines == [] then []
    else
      var r := ScanLine(st, cli, lines[0]);
      if r.Err? then []
      else (if lines[0].Text? && Active(st.cond) then [lines[0]] else []) + Kept(r.value, cli, lines[1..])
  }

  function Weight(line: Line): nat {
    if line.Text? && line.body.Instruction? then 1 else 0
  }

  /** How many instructions a list of lines holds. */
  function Count(texts: seq<Line>): nat {
    if texts == [] then 0 else Weight(texts[0]) + Count(texts[1..])
  }

  /** The instructions of the lines, numbered from `pc`. */
  function Numbered(texts: seq<Line>, pc: nat): (r: seq<Placed>)
    ensures |r| == Count(texts)
    ensures forall k :: 0 <= k < |r| ==> r[k].pc == pc + k
  {
    if texts == [] then []
    else if Weight(texts[0]) == 1 then [Placed(texts[0].body.mn, texts[0].body.ops, pc)] + Numbered(texts[1..], pc + 1)
    else Numbered(texts[1..], pc)
  }

  /** Every label of the lines stands for the number of instructions before its line. */
  predicate LabelsCount(texts: seq<Line>, pc: nat, labels: map<Id, nat>) {
    forall j :: 0 <= j < |texts| ==> LabelsAt(texts, j, pc, labels)
  }

  predicate LabelsAt(texts: seq<Line>, j: nat, pc: nat, labels: map<Id, nat>)
    requires j < |texts|
  {
    texts[j].Text? ==> forall l :: l in texts[j].labels ==> l in labels && labels[l] == pc + Count(texts[..j])
  }

  predicate Extends(labels: map<Id, nat>, more: map<Id, nat>) {
    forall l :: l in labels ==> l in more && more[l] == labels[l]
  }

  /** What the scan does to the counters and tables on the way from `st` to `end`. */
  predicate Scanned(st: Scan, end: Scan, texts: seq<Line>) {
    && end.pc == st.pc + Count(texts)
    && end.kept == st.kept + Numbered(texts, st.pc)
    && Extends(st.labels, end.labels)
    && LabelsCount(texts, st.pc, end.labels)
  }

  lemma {:induction false} LabelsAdded(st: Scan, labels: seq<Id>)
    requires ScanLabels(st, labels).Ok?
    ensures var r := ScanLabels(st, labels).value;
            && r.consts == st.consts && r.cond == st.cond && r.pc == st.pc && r.kept == st.kept && r.data == st.data
            && r.inData == st.inData && Extends(st.labels, r.labels)
            && forall l :: l in labels ==> l in r.labels && r.labels[l] == st.pc
    decreases |labels|
  {
    if labels != [] {
      var next := Scan(st.consts, st.labels[labels[0] := st.pc], st.cond, st.pc, st.kept, st.data, st.inData);
      LabelsAdded(next, labels[1..]);
      assert labels[0] in next.labels;
    }
  }

  /** One line. */
  lemma LineScanned(st: Scan, cli: set<Id>, line: Line)
    requires ScanLine(st, cli, line).Ok?
    ensures var r := ScanLine(st, cli, line).value;
            var mine := if line.Text? && Active(st.cond) then [line] else [];
            Scanned(st, r, mine)
  {
    var r := ScanLine(st, cli, line).value;
    if line.Text? && Active(st.cond) {
      LabelsAdded(st, line.labels);
      assert [line][1..] == [] && [line][..0] == [];
      assert Count([line]) == Weight(line);
      var mid := ScanLabels(st, line.labels).value;
      assert LabelsAt([line], 0, st.pc, r.labels);
      assert r.kept == st.kept + Numbered([line], st.pc) by {
        assert Numbered([line], st.pc) ==
               if Weight(line) == 1 then [Placed(line.body.mn, line.body.ops, st.pc)] + Numbered([], st.pc + 1)
               else Numbered([], st.pc);
      }
    } else {
      assert Numbered([], st.pc) == [];
    }
  }

  lemma {:induction false} CountAppend(a: seq<Line>, b: seq<Line>)
    ensures Count(a + b) == Count(a) + Count(b)
    decreases |a|
  {
    if a == [] {
      assert a + b == b;
    } else {
      assert (a + b)[1..] == a[1..] + b;
      CountAppend(a[1..], b);
    }
  }

  lemma {:induction false} NumberedAppend(a: seq<Line>, b: seq<Line>, pc: nat)
    ensures Numbered(a + b, pc) == Numbered(a, pc) + Numbered(b, pc + Count(a))
    decreases |a|
  {
    if a == [] {
      assert a + b == b;
    } else {
      assert (a + b)[1..] == a[1..] + b;
      NumberedAppend(a[1..], b, pc + Weight(a[0]));
    }
  }

  lemma ScannedThen(st: Scan, mid: Scan, end: Scan, a: seq<Line>, b: seq<Line>)
    requires Scanned(st, mid, a) && Scanned(mid, end, b)
    ensures Scanned(st, end, a + b)
  {
    CountAppend(a, b);
    NumberedAppend(a, b, st.pc);
    forall j | 0 <= j < |a + b| ensures LabelsAt(a + b, j, st.pc, end.labels) {
      if j < |a| {
        assert (a + b)[..j] == a[..j];
        assert LabelsAt(a, j, st.pc, mid.labels);
      } else {
        assert (a + b)[..j] == a + b[..j - |a|];
        CountAppend(a, b[..j - |a|]);
        assert LabelsAt(b, j - |a|, mid.pc, end.labels);
      }
    }
  }

  /** For every accepted source: the kept instructions are numbered in order, and every
      label, forward or backward, is the number of kept instructions before its line. */
  lemma {:induction false} AddressesCount(st: Scan, cli: set<Id>, lines: seq<Line>)
    requires ScanLines(st, cli, lines).Ok?
    ensures Scanned(st, ScanLines(st, cli, lines).value, Kept(st, cli, lines))
    decreases |lines|
  {
    if lines == [] {
      assert Numbered([], st.pc) == [];
    } else {
      var next := ScanLine(st, cli, lines[0]).value;
      LineScanned(st, cli, lines[0]);
      AddressesCount(next, cli, lines[1..]);
      var mine := if lines[0].Text? && Active(st.cond) then [lines[0]] else [];
      hide ScanLine, Scanned;
      ScannedThen(st, next, ScanLines(st, cli, lines).value, mine, Kept(next, cli, lines[1..]));
    }
  }

  /** Labels and constants never share a name, so the merged name table of the second
      pass has one meaning for each. */
  predicate Disjoint(st: Scan) {
    forall id :: id in st.labels ==> id !in st.consts
  }

  lemma {:induction false} LabelsDisjoint(st: Scan, labels: seq<Id>)
    requires Disjoint(st) && ScanLabels(st, labels).Ok?
    ensures Disjoint(ScanLabels(st, labels).value)
    decreases |labels|
  {
    if labels != [] {
      LabelsDisjoint(Scan(st.consts, st.labels[labels[0] := st.pc], st.cond, st.pc, st.kept, st.data, st.inData),
        labels[1..]);
    }
  }

  lemma {:induction false} NamesDisjoint(st: Scan, cli: set<Id>, lines: seq<Line>)
    requires Disjoint(st) && ScanLines(st, cli, lines).Ok?
    ensures Disjoint(ScanLines(st, cli, lines).value)
    decreases |lines|
  {
    if lines != [] {
      var line := lines[0];
      if line.Text? && Active(st.cond) {
        LabelsDisjoint(st, line.labels);
      }
      NamesDisjoint(ScanLine(st, cli, line).value, cli, lines[1..]);
    }
  }

  // ------------------------------------------------------------ second pass

  function AllNames(consts: Names, labels: map<Id, nat>): Names {
    map id | id in consts.Keys + labels.Keys :: if id in labels then labels[id] else consts[id]
  }

  /** No constant is ever redefined. */
  predicate Grows(names: Names, more: Names) {
    forall id :: id in names ==> id in more && more[id] == names[id]
  }

  lemma {:induction false} ConstantsGrow(st: Scan, cli: set<Id>, lines: seq<Line>)
    requires ScanLines(st, cli, lines).Ok?
    ensures Grows(st.consts, ScanLines(st, cli, lines).value.consts)
    decreases |lines|
  {
    if lines != [] {
      LineGrows(st, cli, lines[0]);
      ConstantsGrow(ScanLine(st, cli, lines[0]).value, cli, lines[1..]);
    }
  }

  lemma LineGrows(st: Scan, cli: set<Id>, line: Line)
    requires ScanLine(st, cli, line).Ok?
    ensures Grows(st.consts, ScanLine(st, cli, line).value.consts)
  {
    if line.Text? && Active(st.cond) {
      LabelsAdded(st, line.labels);
    }
  }

  /** What an expression means at any point of the first pass, where `lines` are still to
      come, it means in the second: no later constant or label changes it. */
  lemma ConstantsKeep(st: Scan, cli: set<Id>, lines: seq<Line>, e: Expr)
    requires Disjoint(st) && ScanLines(st, cli, lines).Ok? && Eval(e, st.consts).Ok?
    ensures var end := ScanLines(st, cli, lines).value; Eval(e, AllNames(end.consts, end.labels)) == Eval(e, st.consts)
  {
    hide Eval, ScanLines;
    var end := ScanLines(st, cli, lines).value;
    ConstantsGrow(st, cli, lines);
    NamesDisjoint(st, cli, lines);
    EvalMonotone(e, st.consts, AllNames(end.consts, end.labels));
  }

  datatype Tables = Tables(names: Names, labels: map<Id, nat>)

  predicate TablesOk(t: Tables) {
    forall l :: l in t.labels ==> t.labels[l] <= PROGRAM_WORDS
  }

  function Value(t: Tables, o: Operand): Result<int, Fault> {
    Eval(o.expr, t.names)
  }

  /** A value that must lie in a range. */
  function Ranged(t: Tables, o: Operand, lo: int, hi: int): (r: Result<int, Fault>)
    ensures r.Ok? ==> lo <= r.value < hi && Value(t, o) == r
  {
    var v := Value(t, o);
    if v.Err? then v else if lo <= v.value < hi then v else Err(OutOfRange)
  }

  function Address(t: Tables, o: Operand): (r: Result<int, Fault>)
    ensures r.Ok? ==> o.id in t.labels && r.value == t.labels[o.id]
  {
    if o.id in t.labels then Ok(t.labels[o.id]) else Err(UnknownLabel)
  }

  function Register(o: Operand): (r: Result<int, Fault>)
    ensures r.Ok? ==> 0 <= r.value < 4 && o.register == Some(r.value)
  {
    if o.register.Some? && o.register.value < 4 then Ok(o.register.value) else Err(NotARegister)
  }

  function BitSel(t: Tables, o: Operand): (r: Result<int, Fault>)
    ensures r.Ok? ==> r.value == 0 || r.value == 1
  {
    var b := Value(t, o);
    if b.Err? then b else if b.value == 7 then Ok(BITSEL_BIT7) else if b.value == 0 then Ok(BITSEL_BIT0)
      else Err(OutOfRange)
  }

  type Checked = Result<Instr, Fault>

  function Jump(t: Tables, cond: int, ops: seq<Operand>): Checked {
    if |ops| != 1 then Err(WrongOperands) else
    var a := Address(t, ops[0]);
    if a.Err? then Err(a.error) else Ok(Branch(cond, a.value))
  }

  function DelayOf(t: Tables, ops: seq<Operand>): Checked {
    if |ops| == 2 then
      var m := Value(t, ops[0]);
      if m.Err? then Err(m.error) else
      var e := Value(t, ops[1]);
      if e.Err? then Err(e.error) else
      if 0 <= m.value < 512 && 0 <= e.value < 4 then Ok(Delay(m.value, e.value)) else Err(OutOfRange)
    else if |ops| == 1 then
      var want := Value(t, ops[0]);
      if want.Err? then Err(want.error) else
      if want.value < 0 then Err(NegativeCycles) else
      var c := EncodeCycles.Nearest(want.value, 9);
      Ok(Delay(c.mantissa, c.exponent))
    else Err(WrongOperands)
  }

  function WaitOf(t: Tables, ops: seq<Operand>): Checked {
    if |ops| != 2 && |ops| != 3 then Err(WrongOperands) else
    var level := Ranged(t, ops[1], 0, 2);
    if level.Err? then Err(level.error) else
    if |ops| == 3 then
      var want := Value(t, ops[2]);
      if want.Err? then Err(want.error) else
      if want.value <= 0 then Err(NotPositive) else
      var c := EncodeCycles.Nearest(want.value, 5);
      if c.mantissa == 0 then Err(RoundsToZero) else
      var p := Ranged(t, ops[0], 0, 8);
      if p.Err? then Err(p.error) else Ok(Wait(p.value, level.value, c.mantissa, c.exponent))
    else
      var p := Ranged(t, ops[0], 0, 8);
      if p.Err? then Err(p.error) else Ok(Wait(p.value, level.value, 0, 0))
  }

  function SetOf(t: Tables, ops: seq<Operand>): Checked {
    if |ops| != 2 && |ops| != 3 then Err(WrongOperands) else
    if |ops| == 3 && (ops[1].mode.None? || ops[1].mode.value >= 4) then Err(NotAMode) else
    var mode := if |ops| == 3 then ops[1].mode.value else SET_MODE_LEAVE;
    var v := Ranged(t, ops[|ops| - 1], 0, 2);
    if v.Err? then Err(v.error) else
    var p := Ranged(t, ops[0], 0, 8);
    if p.Err? then Err(p.error) else Ok(SetPin(mode, p.value, v.value))
  }

  /** A register and a number in a range, the number checked first. */
  function RegisterAnd(t: Tables, ops: seq<Operand>, hi: int): Result<(int, int), Fault> {
    if |ops| != 2 then Err(WrongOperands) else
    var v := Ranged(t, ops[1], 0, hi);
    if v.Err? then Err(v.error) else
    var r := Register(ops[0]);
    if r.Err? then Err(r.error) else Ok((r.value, v.value))
  }

  function TwoRegisters(ops: seq<Operand>): Result<(int, int), Fault> {
    if |ops| != 2 then Err(WrongOperands) else
    var d := Register(ops[0]);
    if d.Err? then Err(d.error) else
    var s := Register(ops[1]);
    if s.Err? then Err(s.error) else Ok((d.value, s.value))
  }

  function RegisterPinBit(t: Tables, ops: seq<Operand>): Result<(int, int, int), Fault> {
    if |ops| != 3 then Err(WrongOperands) else
    var r := Register(ops[0]);
    if r.Err? then Err(r.error) else
    var p := Ranged(t, ops[1], 0, 8);
    if p.Err? then Err(p.error) else
    var b := BitSel(t, ops[2]);
    if b.Err? then Err(b.error) else Ok((r.value, p.value, b.value))
  }

  function OneRegister(ops: seq<Operand>): Result<int, Fault> {
    if |ops| != 1 then Err(WrongOperands) else Register(ops[0])
  }

  /** The instruction a line stands for. */
  function Check(t: Tables, mn: Mnemonic, ops: seq<Operand>): Checked {
    match mn
    case NOP => if ops == [] then Ok(Nop) else Err(WrongOperands)
    case HALT => if ops == [] then Ok(Halt) else Err(WrongOperands)
    case RET => if ops == [] then Ok(Ret) else Err(WrongOperands)
    case JMP => Jump(t, COND_JMP, ops)
    case BEQ => Jump(t, COND_BEQ, ops)
    case BNE => Jump(t, COND_BNE, ops)
    case CALL => Jump(t, COND_CALL, ops)
    case LDI => var r := RegisterAnd(t, ops, 256); if r.Err? then Err(r.error) else Ok(Ldi(r.value.0, r.value.1))
    case SET => SetOf(t, ops)
    case OUT => var r := OneRegister(ops); if r.Err? then Err(r.error) else Ok(Out(r.value))
    case IN => var r := OneRegister(ops); if r.Err? then Err(r.error) else Ok(In(r.value))
    case SHIFT =>
      if |ops| != 2 then Err(WrongOperands) else
      if ops[1].direction.None? || ops[1].direction.value > 1 then Err(NotADirection) else
      var r := Register(ops[0]);
      if r.Err? then Err(r.error) else Ok(Shift(r.value, ops[1].direction.value))
    case DELAY => DelayOf(t, ops)
    case WAIT => WaitOf(t, ops)
    case TEST => var r := RegisterAnd(t, ops, 8); if r.Err? then Err(r.error) else Ok(TestBit(r.value.0, r.value.1))
    case OUTB =>
      var r := RegisterPinBit(t, ops);
      if r.Err? then Err(r.error) else Ok(OutBit(r.value.0, r.value.1, r.value.2))
    case INB =>
      var r := RegisterPinBit(t, ops);
      if r.Err? then Err(r.error) else Ok(InBit(r.value.0, r.value.1, r.value.2))
    case LOAD => var r := RegisterAnd(t, ops, 512); if r.Err? then Err(r.error) else Ok(Load(r.value.0, r.value.1))
    case STORE => var r := RegisterAnd(t, ops, 512); if r.Err? then Err(r.error) else Ok(Store(r.value.0, r.value.1))
    case LOOP =>
      if |ops| != 2 then Err(WrongOperands) else
      var a := Address(t, ops[0]);
      if a.Err? then Err(a.error) else
      var r := Register(ops[1]);
      if r.Err? then Err(r.error) else Ok(Loop(a.value, r.value))
    case CMP => var r := TwoRegisters(ops); if r.Err? then Err(r.error) else Ok(Cmp(r.value.0, r.value.1))
    case LOADX => var r := TwoRegisters(ops); if r.Err? then Err(r.error) else Ok(LoadX(r.value.0, r.value.1))
    case XOR => var r := TwoRegisters(ops); if r.Err? then Err(r.error) else Ok(XorReg(r.value.0, r.value.1))
    case ADD => var r := TwoRegisters(ops); if r.Err? then Err(r.error) else Ok(Add(r.value.0, r.value.1))
    case UnknownWord => Err(UnknownMnemonic)
  }

  /** An accepted line's operands all fit their fields: no encoder mask cuts one. */
  lemma CheckedFits(t: Tables, mn: Mnemonic, ops: seq<Operand>)
    requires TablesOk(t) && Check(t, mn, ops).Ok?
    ensures InRange(Check(t, mn, ops).value) && !Check(t, mn, ops).value.Reserved?
  {
    hide Value, EncodeCycles.Nearest;
    if mn.DELAY? && |ops| == 1 {
      var want := Value(t, ops[0]).value;
      NearestFits(want, 9);
    } else if mn.WAIT? && |ops| == 3 {
      var want := Value(t, ops[2]).value;
      NearestFits(want, 5);
    }
  }

  lemma NearestFits(cycles: nat, bits: nat)
    requires bits == 9 || bits == 5
    ensures var c := EncodeCycles.Nearest(cycles, bits);
            c.mantissa < (if bits == 9 then 512 else 32) && c.exponent < 4
  {
    EncodeCycles.NearestIsOptimal(cycles, bits, EncodeCycles.Choice(0, 0, 0));
    EncodeCycles.Mantissas();
    hide EncodeCycles.Nearest, EncodeCycles.Largest;
  }

  /** The "rounds to 0" refusal of a WAIT timeout is never given. */
  lemma NeverRefusedAsZero(t: Tables, mn: Mnemonic, ops: seq<Operand>)
    ensures Check(t, mn, ops) != Err(RoundsToZero)
  {
    hide EncodeCycles.Nearest;
    forall e: Expr ensures Eval(e, t.names) != Err(RoundsToZero) {
      EvalFaults(e, t.names);
    }
    if mn.WAIT? && |ops| == 3 && Value(t, ops[2]).Ok? && Value(t, ops[2]).value > 0 {
      EncodeCycles.NeverRoundsToZero(Value(t, ops[2]).value, 5);
    }
    hide Eval;
  }

  lemma {:induction false} EvalFaults(e: Expr, names: Names)
    ensures Eval(e, names) != Err(RoundsToZero)
  {
    match e
    case Binary(_, l, r) =>
      EvalFaults(l, names);
      EvalFaults(r, names);
    case Negated(e1) => EvalFaults(e1, names);
    case _ =>
  }

  /** The kept instructions as operations, or the first refusal. */
  function CheckAll(t: Tables, kept: seq<Placed>): (r: Result<seq<Instr>, Fault>)
    ensures r.Ok? ==> |r.value| == |kept|
    ensures r.Ok? ==> forall k :: 0 <= k < |kept| ==> Check(t, kept[k].mn, kept[k].ops) == Ok(r.value[k])
    decreases |kept|
  {
    if kept == [] then Ok([])
    else
      var i := Check(t, kept[0].mn, kept[0].ops);
      if i.Err? then Err(i.error) else
      var rest := CheckAll(t, kept[1..]);
      if rest.Err? then rest else Ok([i.value] + rest.value)
  }

  lemma CheckedAllFit(t: Tables, kept: seq<Placed>)
    requires TablesOk(t) && CheckAll(t, kept).Ok?
    ensures forall k :: 0 <= k < |kept| ==> InRange(CheckAll(t, kept).value[k]) && !CheckAll(t, kept).value[k].Reserved?
  {
    var code := CheckAll(t, kept).value;
    forall k | 0 <= k < |kept| ensures InRange(code[k]) && !code[k].Reserved? {
      CheckedFits(t, kept[k].mn, kept[k].ops);
    }
  }

  function Values(t: Tables, es: seq<Expr>): Result<seq<Byte>, Fault>
    decreases |es|
  {
    if es == [] then Ok([])
    else
      var b := Eval(es[0], t.names);
      if b.Err? then Err(b.error) else
      if !(0 <= b.value < 256) then Err(OutOfRange) else
      var rest := Values(t, es[1..]);
      if rest.Err? then rest else Ok([b.value] + rest.value)
  }

  function DataOf(t: Tables, item: DataItem): Result<seq<Byte>, Fault> {
    match item
    case Bytes(values) => Values(t, values)
    case Ascii(text) => if text.None? then Err(BadText) else Ok(text.value)
  }

  function AllData(t: Tables, items: seq<DataItem>): Result<seq<Byte>, Fault>
    decreases |items|
  {
    if items == [] then Ok([])
    else
      var d := DataOf(t, items[0]);
      if d.Err? then d else
      var rest := AllData(t, items[1..]);
      if rest.Err? then rest else Ok(d.value + rest.value)
  }

  datatype Assembled = Assembled(words: Program, data: seq<Byte>, labels: map<Id, nat>)

  function Start(defines: Names): Names {
    map["HOST_GO" := 4, "HOST_STATUS" := 5, "HOST_ERROR" := 6] + defines
  }

  function TablesOf(st: Scan): Tables {
    Tables(AllNames(st.consts, st.labels), st.labels)
  }

  // ------------------------------------------------------------ meaning

  /** The scanned source, the operations of its kept lines, and the words agree. */
  ghost predicate Means(defines: Names, lines: seq<Line>, st: Scan, code: seq<Instr>, out: Assembled) {
    && FirstPass(Start(defines), defines.Keys, lines) == Ok(st)
    && CheckAll(TablesOf(st), st.kept) == Ok(code)
    && AllData(TablesOf(st), st.data) == Ok(out.data) && |out.data| <= DATA_BYTES
    && |out.words| == |code| == |st.kept| && out.labels == st.labels
    && forall k :: 0 <= k < |code| ==> WordOf(out, code, k)
  }

  predicate WordOf(out: Assembled, code: seq<Instr>, k: nat)
    requires k < |out.words| && k < |code|
  {
    Decode(out.words[k]) == code[k]
  }

  lemma FirstPassTables(defines: Names, lines: seq<Line>)
    requires FirstPass(Start(defines), defines.Keys, lines).Ok?
    ensures var st := FirstPass(Start(defines), defines.Keys, lines).value;
            var first := Scan(Start(defines), map[], [], 0, [], [], false);
            && Scanned(first, st, Kept(first, defines.Keys, lines)) && Disjoint(st) && TablesOk(TablesOf(st))
            && |st.kept| == st.pc <= PROGRAM_WORDS
  {
    var st := FirstPass(Start(defines), defines.Keys, lines).value;
    var first := Scan(Start(defines), map[], [], 0, [], [], false);
    AddressesCount(first, defines.Keys, lines);
    NamesDisjoint(first, defines.Keys, lines);
    LabelsBounded(first, defines.Keys, lines);
    hide ScanLines, Kept, Start;
  }

  lemma {:induction false} LabelsBounded(st: Scan, cli: set<Id>, lines: seq<Line>)
    requires (forall l :: l in st.labels ==> st.labels[l] <= st.pc) && ScanLines(st, cli, lines).Ok?
    ensures var r := ScanLines(st, cli, lines).value; forall l :: l in r.labels ==> r.labels[l] <= r.pc
    decreases |lines|
  {
    if lines != [] {
      if lines[0].Text? && Active(st.cond) {
        LabelsBoundedHere(st, lines[0].labels);
      }
      LabelsBounded(ScanLine(st, cli, lines[0]).value, cli, lines[1..]);
    }
  }

  lemma {:induction false} LabelsBoundedHere(st: Scan, labels: seq<Id>)
    requires (forall l :: l in st.labels ==> st.labels[l] <= st.pc) && ScanLabels(st, labels).Ok?
    ensures var r := ScanLabels(st, labels).value; forall l :: l in r.labels ==> r.labels[l] <= r.pc
    decreases |labels|
  {
    if labels != [] {
      LabelsBoundedHere(Scan(st.consts, st.labels[labels[0] := st.pc], st.cond, st.pc, st.kept, st.data, st.inData),
        labels[1..]);
    }
  }

  /** The two passes. A source is accepted with words that decode to exactly the checked
      operations of its kept lines, or refused with a fault. */
  method Assemble(defines: Names, lines: seq<Line>)
    returns (r: Result<Assembled, Fault>, ghost st: Scan, ghost code: seq<Instr>)
    ensures r.Ok? ==> Means(defines, lines, st, code, r.value)
    ensures r.Err? ==>
              || FirstPass(Start(defines), defines.Keys, lines) == Err(r.error)
              || (FirstPass(Start(defines), defines.Keys, lines) == Ok(st)
                  && (|| CheckAll(TablesOf(st), st.kept) == Err(r.error)
                      || AllData(TablesOf(st), st.data) == Err(r.error)
                      || (r.error == TooMuchData && AllData(TablesOf(st), st.data).Ok?
                          && |AllData(TablesOf(st), st.data).value| > DATA_BYTES)))
  {
    st, code := Scan(map[], map[], [], 0, [], [], false), [];
    var first := RunFirstPass(defines, lines);
    if first.Err? {
      return Err(first.error), st, code;
    }
    st := first.value;
    FirstPassTables(defines, lines);
    var t := TablesOf(first.value);
    var words := RunSecondPass(t, first.value.kept);
    if words.Err? {
      return Err(words.error), st, code;
    }
    code := CheckAll(t, st.kept).value;
    var data := RunData(t, first.value.data);
    if data.Err? {
      return Err(data.error), st, code;
    }
    if |data.value| > DATA_BYTES {
      return Err(TooMuchData), st, code;
    }
    r := Ok(Assembled(words.value, data.value, first.value.labels));
    hide FirstPass, CheckAll, AllData, TablesOf;
    assert forall k :: 0 <= k < |code| ==> WordOf(r.value, code, k);
  }

  /** Pass 1: one loop over the lines, with the tables and the `.if` stack updated. */
  method RunFirstPass(defines: Names, lines: seq<Line>) returns (r: Result<Scan, Fault>)
    ensures r == FirstPass(Start(defines), defines.Keys, lines)
  {
    var cli := defines.Keys;
    var st := Scan(Start(defines), map[], [], 0, [], [], false);
    for i := 0 to |lines|
      invariant ScanLines(st, cli, lines[i..]) ==
                ScanLines(Scan(Start(defines), map[], [], 0, [], [], false), cli, lines)
    {
      assert lines[i..][0] == lines[i] && lines[i..][1..] == lines[i + 1..];
      var next := ScanLine(st, cli, lines[i]);
      if next.Err? {
        return next;
      }
      st := next.value;
    }
    assert ScanLines(st, cli, lines[|lines|..]) == Ok(st);
    if st.cond != [] {
      return Err(UnclosedIf);
    }
    if st.pc > PROGRAM_WORDS {
      return Err(TooManyWords);
    }
    return Ok(st);
  }

  /** Pass 2: check and encode each kept line. */
  method RunSecondPass(t: Tables, kept: seq<Placed>) returns (r: Result<Program, Fault>)
    requires TablesOk(t)
    ensures var c := CheckAll(t, kept);
            if c.Err? then r == Err(c.error)
            else r.Ok? && |r.value| == |c.value| && forall k :: 0 <= k < |c.value| ==> Decode(r.value[k]) == c.value[k]
  {
    var words: Program := [];
    ghost var done: seq<Instr> := [];
    hide Check, Encode, Decode;
    assert kept[0..] == kept;
    PrefixedNone(CheckAll(t, kept));
    for i := 0 to |kept|
      invariant |words| == |done| == i && forall k :: 0 <= k < i ==> Decode(words[k]) == done[k]
      invariant CheckAll(t, kept) == Prefixed(done, CheckAll(t, kept[i..]))
    {
      assert kept[i..][0] == kept[i] && kept[i..][1..] == kept[i + 1..];
      var c := Check(t, kept[i].mn, kept[i].ops);
      if c.Err? {
        return Err(c.error);
      }
      CheckedFits(t, kept[i].mn, kept[i].ops);
      DecodeEncode(c.value);
      PrefixedOnce(done, c.value, CheckAll(t, kept[i + 1..]));
      words := words + [Encode(c.value)];
      done := done + [c.value];
    }
    assert CheckAll(t, kept[|kept|..]) == Ok([]);
    assert done + [] == done;
    return Ok(words);
  }

  function Prefixed<T>(done: seq<T>, r: Result<seq<T>, Fault>): Result<seq<T>, Fault> {
    if r.Err? then r else Ok(done + r.value)
  }

  lemma PrefixedNone<T>(r: Result<seq<T>, Fault>)
    ensures Prefixed([], r) == r
  {
    if r.Ok? {
      assert [] + r.value == r.value;
    }
  }

  lemma PrefixedOnce<T>(done: seq<T>, x: T, r: Result<seq<T>, Fault>)
    ensures Prefixed(done, Prefixed([x], r)) == Prefixed(done + [x], r)
  {
    if r.Ok? {
      assert done + ([x] + r.value) == (done + [x]) + r.value;
    }
  }

  method RunData(t: Tables, items: seq<DataItem>) returns (r: Result<seq<Byte>, Fault>)
    ensures r == AllData(t, items)
  {
    var data: seq<Byte> := [];
    hide DataOf;
    assert items[0..] == items;
    PrefixedNone(AllData(t, items));
    for i := 0 to |items|
      invariant AllData(t, items) == Prefixed(data, AllData(t, items[i..]))
    {
      assert items[i..][0] == items[i] && items[i..][1..] == items[i + 1..];
      var d := DataOf(t, items[i]);
      if d.Err? {
        return d;
      }
      ghost var rest := AllData(t, items[i + 1..]);
      if rest.Ok? {
        assert data + (d.value + rest.value) == (data + d.value) + rest.value;
      }
      data := data + d.value;
    }
    assert AllData(t, items[|items|..]) == Ok([]);
    assert data + [] == data;
    return Ok(data);
  }

  /** Running the words is running the source: at every address the machine executes the
      operation of the kept line numbered there, and a branch to a label lands on the
      number of kept instructions before that label. */
  lemma WordsRunTheSource(defines: Names, lines: seq<Line>, st: Scan, code: seq<Instr>, out: Assembled,
                          s: State, io: Stimulus, t: nat)
    requires Means(defines, lines, st, code, out) && Valid(s) && s.pc < |out.words|
    ensures Check(TablesOf(st), st.kept[s.pc].mn, st.kept[s.pc].ops) == Ok(code[s.pc]) && InRange(code[s.pc])
    ensures st.kept[s.pc].pc == s.pc
    ensures Step(s, Fetch(out.words, s.pc), io, t) == Exec(s, code[s.pc], io, t)
    ensures LabelsCount(Kept(Scan(Start(defines), map[], [], 0, [], [], false), defines.Keys, lines), 0, out.labels)
  {
    FirstPassTables(defines, lines);
    CheckedAllFit(TablesOf(st), st.kept);
    assert WordOf(out, code, s.pc);
    hide Check, Exec, Decode, FirstPass, Kept;
  }

  // ------------------------------------------------------------ the boot image

  function LowHigh(w: Word): seq<Byte> {
    [w % 0x100, w / 0x100]
  }

  function ToBytes(words: Program): (b: seq<Byte>)
    ensures |b| == 2 * |words|
  {
    if words == [] then [] else ToBytes(words[..|words| - 1]) + LowHigh(words[|words| - 1])
  }

  function Zeros(n: nat): (z: seq<Byte>)
    ensures |z| == n
  {
    seq(n, _ => 0)
  }

  function Image(a: Assembled): seq<Byte>
    requires |a.words| <= PROGRAM_WORDS
  {
    if a.data == [] then ToBytes(a.words)
    else ToBytes(a.words) + Zeros(2 * PROGRAM_WORDS - 2 * |a.words|) + a.data
  }

  /** Little-endian, as the sequencer fetches it. */
  function WordAt(bytes: seq<Byte>, k: nat): int
    requires 2 * k + 1 < |bytes|
  {
    var low: int, high: int := bytes[2 * k], bytes[2 * k + 1];
    low + 0x100 * high
  }

  lemma {:induction false} BytesOfWord(words: Program, k: nat)
    requires k < |words|
    ensures WordAt(ToBytes(words), k) == words[k]
    decreases |words|
  {
    var n := |words| - 1;
    if k < n {
      BytesOfWord(words[..n], k);
    }
  }

  /** The image holds word k in bytes 2k and 2k + 1 and the data at 512, and fits the
      1024-byte memory. It is short of 1024 bytes, which the host's loader refuses at
      the last byte, exactly when the data region is not full. */
  lemma ImageHolds(a: Assembled)
    requires |a.words| <= PROGRAM_WORDS && |a.data| <= DATA_BYTES
    ensures var img := Image(a);
            && |img| <= 1024 && (|img| < 1024 <==> |a.data| < DATA_BYTES)
            && (forall k :: 0 <= k < |a.words| ==> WordAt(img, k) == a.words[k])
            && (a.data != [] ==> |img| == 2 * PROGRAM_WORDS + |a.data| && img[2 * PROGRAM_WORDS..] == a.data)
            && (|img| == 0 <==> a.words == [] && a.data == [])
  {
    var img := Image(a);
    forall k | 0 <= k < |a.words| ensures WordAt(img, k) == a.words[k] {
      BytesOfWord(a.words, k);
      hide ToBytes;
    }
  }
}
