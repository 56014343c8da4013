/** Assembler sources as tokenised lines: expressions, conditional blocks, and the first
    pass, which keeps the active lines and gives every label its address. */
module AsmSource {
  import opened Bits
  import opened Wrappers

  datatype Fault =
    | BadExpression | UndefinedName | DivisionByZero | NegativeShift
    | MissingCondition | StrayDirective | UnclosedIf
    | DuplicateName | LabelInData | BadEqu | NotInData | InstructionInData | TooManyWords
    | WrongOperands | UnknownLabel | NotARegister | NotAMode | NotADirection | OutOfRange
    | NegativeCycles | NotPositive | RoundsToZero | UnknownMnemonic | BadText | TooMuchData

  type Id = string

  type Names = map<Id, int>

  // ------------------------------------------------------------ expressions

  datatype Operator = Plus | Minus | Times | Over | Left | Right

  datatype Expr = Number(n: int) | Name(id: Id) | Binary(op: Operator, l: Expr, r: Expr) | Negated(e: Expr) | Malformed

  /** Python's `//`. */
  function FloorDiv(a: int, b: int): int
    requires b != 0
  {
    if b > 0 then a / b else (-a) / (-b)
  }

  function Apply(op: Operator, a: int, b: int): Result<int, Fault> {
    match op
    case Plus => Ok(a + b)
    case Minus => Ok(a - b)
    case Times => Ok(a * b)
    case Over => if b == 0 then Err(DivisionByZero) else Ok(FloorDiv(a, b))
    case Left => if b < 0 then Err(NegativeShift) else Ok(a * Pow2(b))
    case Right => if b < 0 then Err(NegativeShift) else Ok(FloorDiv(a, Pow2(b)))
  }

  function Eval(e: Expr, names: Names): Result<int, Fault> {
    match e
    case Number(n) => Ok(n)
    case Name(id) => if id in names then Ok(names[id]) else Err(UndefinedName)
    case Binary(op, l, r) =>
      var a := Eval(l, names);
      if a.Err? then a else
      var b := Eval(r, names);
      if b.Err? then b else Apply(op, a.value, b.value)
    case Negated(e) =>
      var a := Eval(e, names);
      if a.Err? then a else Ok(-a.value)
    case Malformed => Err(BadExpression)
  }

  /** A value does not change when more names become known. */
  lemma {:induction false} EvalMonotone(e: Expr, names: Names, more: Names)
    requires forall id :: id in names ==> id in more && more[id] == names[id]
    requires Eval(e, names).Ok?
    ensures Eval(e, more) == Eval(e, names)
  {
    match e
    case Binary(op, l, r) =>
      EvalMonotone(l, names, more);
      EvalMonotone(r, names, more);
    case Negated(e1) =>
      EvalMonotone(e1, names, more);
    case _ =>
  }

  // ------------------------------------------------------------ lines

  datatype Mnemonic =
    | NOP | HALT | RET | JMP | BEQ | BNE | CALL | LDI | SET | OUT | IN | SHIFT | DELAY | WAIT | TEST
    | OUTB | INB | LOAD | STORE | LOOP | CMP | LOADX | XOR | ADD | UnknownWord

  /** One operand, with every reading of it the assembler may ask for: a name, a
      register, a pin mode, a shift direction, an expression. */
  datatype Operand = Operand(id: Id, register: Option<nat>, mode: Option<nat>, direction: Option<nat>, expr: Expr)

  datatype DataItem = Bytes(values: seq<Expr>) | Ascii(text: Option<seq<Byte>>)

  datatype Body =
    | Empty
    | Equ(id: Id, operands: nat, value: Expr)
    | DataMark
    | DataLine(item: DataItem)
    | Instruction(mn: Mnemonic, ops: seq<Operand>)

  datatype Line = If(cond: Option<Expr>) | Else | EndIf | Text(labels: seq<Id>, body: Body)

  datatype Frame = Frame(active: bool, taken: bool)

  datatype Placed = Placed(mn: Mnemonic, ops: seq<Operand>, pc: nat)

  /** The first pass's variables. */
  datatype Scan = Scan(consts: Names, labels: map<Id, nat>, cond: seq<Frame>, pc: nat,
                       kept: seq<Placed>, data: seq<DataItem>, inData: bool)

  predicate Active(cond: seq<Frame>) {
    forall i :: 0 <= i < |cond| ==> cond[i].active
  }

  function WithCond(st: Scan, cond: seq<Frame>): Scan {
    Scan(st.consts, st.labels, cond, st.pc, st.kept, st.data, st.inData)
  }

  function Truth(n: int): bool { n != 0 }

  function ScanIf(st: Scan, e: Option<Expr>): Result<Scan, Fault> {
    if e.None? then Err(MissingCondition)
    else if !Active(st.cond) then Ok(WithCond(st, st.cond + [Frame(false, false)]))
    else
      var v := Eval(e.value, st.consts);
      if v.Err? then Err(v.error) else Ok(WithCond(st, st.cond + [Frame(Truth(v.value), Truth(v.value))]))
  }

  function ScanLabels(st: Scan, labels: seq<Id>): Result<Scan, Fault>
    decreases |labels|
  {
    if labels == [] then Ok(st)
    else if labels[0] in st.labels || labels[0] in st.consts then Err(DuplicateName)
    else if st.inData then Err(LabelInData)
    else ScanLabels(Scan(st.consts, st.labels[labels[0] := st.pc], st.cond, st.pc, st.kept, st.data, st.inData),
      labels[1..])
  }

  function ScanBody(st: Scan, cli: set<Id>, body: Body): Result<Scan, Fault> {
    match body
    case Empty => Ok(st)
    case Equ(id, operands, value) =>
      if operands != 2 then Err(BadEqu)
      else if id in cli then Ok(st)
      else if id in st.consts || id in st.labels then Err(DuplicateName)
      else
        var v := Eval(value, st.consts);
        if v.Err? then Err(v.error)
        else Ok(Scan(st.consts[id := v.value], st.labels, st.cond, st.pc, st.kept, st.data, st.inData))
    case DataMark => Ok(Scan(st.consts, st.labels, st.cond, st.pc, st.kept, st.data, true))
    case DataLine(item) =>
      if !st.inData then Err(NotInData)
      else Ok(Scan(st.consts, st.labels, st.cond, st.pc, st.kept, st.data + [item], st.inData))
    case Instruction(mn, ops) =>
      if st.inData then Err(InstructionInData)
      else Ok(Scan(st.consts, st.labels, st.cond, st.pc + 1, st.kept + [Placed(mn, ops, st.pc)], st.data, st.inData))
  }

  function ScanText(st: Scan, cli: set<Id>, labels: seq<Id>, body: Body): Result<Scan, Fault> {
    var r := ScanLabels(st, labels);
    if r.Err? then r else ScanBody(r.value, cli, body)
  }

  function ScanLine(st: Scan, cli: set<Id>, line: Line): Result<Scan, Fault> {
    match line
    case If(e) => ScanIf(st, e)
    case Else =>
      if st.cond == [] then Err(StrayDirective)
      else
        var n := |st.cond| - 1;
        Ok(WithCond(st, st.cond[..n] + [Frame(!st.cond[n].taken, true)]))
    case EndIf => if st.cond == [] then Err(StrayDirective) else Ok(WithCond(st, st.cond[..|st.cond| - 1]))
    case Text(labels, body) => if Active(st.cond) then ScanText(st, cli, labels, body) else Ok(st)
  }

  function ScanLines(st: Scan, cli: set<Id>, lines: seq<Line>): Result<Scan, Fault>
    decreases |lines|
  {
    if lines == [] then Ok(st)
    else
      var r := ScanLine(st, cli, lines[0]);
      if r.Err? then r else ScanLines(r.value, cli, lines[1..])
  }

  const PROGRAM_WORDS := 256

  function FirstPass(consts: Names, cli: set<Id>, lines: seq<Line>): Result<Scan, Fault> {
    var r := ScanLines(Scan(consts, map[], [], 0, [], [], false), cli, lines);
    if r.Err? then r
    else if r.value.cond != [] then Err(UnclosedIf)
    else if r.value.pc > PROGRAM_WORDS then Err(TooManyWords)
    else r
  }

  // ------------------------------------------------------------ conditional blocks

  /** The block structure of a source with nested conditionals: lines under `.if`, and
      any number of `.else` parts. */
  datatype Blocks = Done | Then(head: Block, tail: Blocks)

  datatype Block = Plain(labels: seq<Id>, body: Body) | Cond(cond: Expr, chosen: Blocks, others: Others)

  datatype Others = NoElse | ElsePart(body: Blocks, more: Others)

  function Flatten(bs: Blocks): seq<Line> {
    match bs
    case Done => []
    case Then(head, tail) => FlattenOne(head) + Flatten(tail)
  }

  function FlattenOne(b: Block): seq<Line> {
    match b
    case Plain(labels, body) => [Text(labels, body)]
    case Cond(cond, body, others) => [If(Some(cond))] + (Flatten(body) + (FlattenOthers(others) + [EndIf]))
  }

  function FlattenOthers(o: Others): seq<Line> {
    match o
    case NoElse => []
    case ElsePart(body, more) => [Else] + (Flatten(body) + FlattenOthers(more))
  }

  /** What the blocks mean: a condition picks its own lines or the first `.else` part,
      and the rest is as if it were not there. */
  function Meaning(st: Scan, cli: set<Id>, bs: Blocks): Result<Scan, Fault>
    decreases bs
  {
    match bs
    case Done => Ok(st)
    case Then(head, tail) =>
      var r := MeaningOne(st, cli, head);
      if r.Err? then r else Meaning(r.value, cli, tail)
  }

  function MeaningOne(st: Scan, cli: set<Id>, b: Block): Result<Scan, Fault>
    decreases b
  {
    match b
    case Plain(labels, body) => ScanText(st, cli, labels, body)
    case Cond(cond, body, others) =>
      var v := Eval(cond, st.consts);
      if v.Err? then Err(v.error)
      else if Truth(v.value) then Meaning(st, cli, body)
      else if others.ElsePart? then Meaning(st, cli, others.body)
      else Ok(st)
  }

  lemma {:induction false} ScanAppend(st: Scan, cli: set<Id>, a: seq<Line>, b: seq<Line>)
    ensures ScanLines(st, cli, a + b) ==
            var r := ScanLines(st, cli, a); if r.Err? then r else ScanLines(r.value, cli, b)
    decreases |a|
  {
    hide ScanLine;
    if a == [] {
      assert a + b == b;
    } else {
      assert (a + b)[1..] == a[1..] + b;
      var r := ScanLine(st, cli, a[0]);
      if r.Ok? {
        ScanAppend(r.value, cli, a[1..], b);
      }
    }
  }

  lemma ScanOne(st: Scan, cli: set<Id>, line: Line)
    ensures ScanLines(st, cli, [line]) == ScanLine(st, cli, line)
  {
    hide ScanLine;
    assert [line][1..] == [];
    var r := ScanLine(st, cli, line);
    if r.Ok? {
      assert ScanLines(r.value, cli, []) == r;
    }
  }

  /** Where the stack is not all active, balanced lines change nothing. */
  lemma {:induction false} Skipped(st: Scan, cli: set<Id>, bs: Blocks)
    requires !Active(st.cond)
    ensures ScanLines(st, cli, Flatten(bs)) == Ok(st)
    decreases bs
  {
    match bs
    case Done =>
    case Then(head, tail) =>
      SkippedOne(st, cli, head);
      Skipped(st, cli, tail);
      ScanAppend(st, cli, FlattenOne(head), Flatten(tail));
  }

  lemma {:induction false} SkippedOne(st: Scan, cli: set<Id>, b: Block)
    requires !Active(st.cond)
    ensures ScanLines(st, cli, FlattenOne(b)) == Ok(st)
    decreases b
  {
    match b
    case Plain(labels, body) => ScanOne(st, cli, Text(labels, body));
    case Cond(cond, body, others) =>
      var inner := WithCond(st, st.cond + [Frame(false, false)]);
      ScanAppend(st, cli, [If(Some(cond))], Flatten(body) + (FlattenOthers(others) + [EndIf]));
      ScanOne(st, cli, If(Some(cond)));
      Deeper(st.cond, Frame(false, false));
      Skipped(inner, cli, body);
      ScanAppend(inner, cli, Flatten(body), FlattenOthers(others) + [EndIf]);
      SkippedOthers(st, cli, Frame(false, false), others);
  }

  /** An inactive stack stays so under one more frame. */
  lemma Deeper(cond: seq<Frame>, f: Frame)
    ensures Active(cond + [f]) <==> Active(cond) && f.active
  {
    var deep := cond + [f];
    assert deep[|cond|] == f;
    if Active(deep) {
      assert forall i :: 0 <= i < |cond| ==> cond[i] == deep[i];
    }
  }

  /** The `.else` parts of a block under an inactive stack, or after a taken branch. */
  lemma {:induction false} SkippedOthers(st: Scan, cli: set<Id>, f: Frame, o: Others)
    requires !Active(st.cond) || f.taken || o.NoElse?
    ensures ScanLines(WithCond(st, st.cond + [f]), cli, FlattenOthers(o) + [EndIf]) == Ok(st)
    decreases o
  {
    var here := WithCond(st, st.cond + [f]);
    assert (st.cond + [f])[..|st.cond|] == st.cond;
    match o
    case NoElse =>
      assert FlattenOthers(o) + [EndIf] == [EndIf];
      ScanOne(here, cli, EndIf);
      assert WithCond(here, st.cond) == st;
    case ElsePart(body, more) =>
      var g := Frame(!f.taken, true);
      var next := WithCond(st, st.cond + [g]);
      assert FlattenOthers(o) + [EndIf] == [Else] + (Flatten(body) + (FlattenOthers(more) + [EndIf]));
      ScanAppend(here, cli, [Else], Flatten(body) + (FlattenOthers(more) + [EndIf]));
      ScanOne(here, cli, Else);
      Deeper(st.cond, g);
      Skipped(next, cli, body);
      ScanAppend(next, cli, Flatten(body), FlattenOthers(more) + [EndIf]);
      SkippedOthers(st, cli, g, more);
  }

  /** The stack of the first pass computes the block structure's meaning: for every
      nesting of conditionals, under any active stack, errors included. */
  lemma {:induction false} StackIsMeaning(st: Scan, cli: set<Id>, bs: Blocks)
    requires Active(st.cond)
    ensures ScanLines(st, cli, Flatten(bs)) == Meaning(st, cli, bs)
    ensures Meaning(st, cli, bs).Ok? ==> Meaning(st, cli, bs).value.cond == st.cond
    decreases bs, 0
  {
    match bs
    case Done =>
    case Then(head, tail) =>
      StackIsMeaningOne(st, cli, head);
      ScanAppend(st, cli, FlattenOne(head), Flatten(tail));
      var r := MeaningOne(st, cli, head);
      if r.Ok? {
        StackIsMeaning(r.value, cli, tail);
      }
  }

  lemma {:induction false} StackIsMeaningOne(st: Scan, cli: set<Id>, b: Block)
    requires Active(st.cond)
    ensures ScanLines(st, cli, FlattenOne(b)) == MeaningOne(st, cli, b)
    ensures MeaningOne(st, cli, b).Ok? ==> MeaningOne(st, cli, b).value.cond == st.cond
    decreases b
  {
    match b
    case Plain(labels, body) =>
      ScanOne(st, cli, Text(labels, body));
      TextKeepsStack(st, cli, labels, body);
    case Cond(cond, body, others) =>
      var rest := Flatten(body) + (FlattenOthers(others) + [EndIf]);
      ScanAppend(st, cli, [If(Some(cond))], rest);
      ScanOne(st, cli, If(Some(cond)));
      var v := Eval(cond, st.consts);
      if v.Ok? {
        var f := Frame(Truth(v.value), Truth(v.value));
        var inner := WithCond(st, st.cond + [f]);
        Deeper(st.cond, f);
        ScanAppend(inner, cli, Flatten(body), FlattenOthers(others) + [EndIf]);
        if f.active {
          TakenBranch(st, cli, f, body, others);
        } else {
          Skipped(inner, cli, body);
          FirstElse(st, cli, others);
        }
      }
  }

  lemma TextKeepsStack(st: Scan, cli: set<Id>, labels: seq<Id>, body: Body)
    ensures ScanText(st, cli, labels, body).Ok? ==> ScanText(st, cli, labels, body).value.cond == st.cond
  {
    LabelsKeepStack(st, labels);
  }

  lemma {:induction false} LabelsKeepStack(st: Scan, labels: seq<Id>)
    ensures ScanLabels(st, labels).Ok? ==> ScanLabels(st, labels).value.cond == st.cond
    decreases |labels|
  {
    if labels != [] && ScanLabels(st, labels).Ok? {
      LabelsKeepStack(Scan(st.consts, st.labels[labels[0] := st.pc], st.cond, st.pc, st.kept, st.data, st.inData),
        labels[1..]);
    }
  }

  /** The meaning does not depend on the stack it is computed under. */
  lemma {:induction false} MeaningUnderStack(st: Scan, cli: set<Id>, bs: Blocks, cond: seq<Frame>)
    ensures Meaning(WithCond(st, cond), cli, bs) ==
            var r := Meaning(st, cli, bs); if r.Err? then r else Ok(WithCond(r.value, cond))
    decreases bs
  {
    match bs
    case Done =>
    case Then(head, tail) =>
      MeaningOneUnderStack(st, cli, head, cond);
      var r := MeaningOne(st, cli, head);
      if r.Ok? {
        MeaningUnderStack(r.value, cli, tail, cond);
      }
  }

  lemma {:induction false} MeaningOneUnderStack(st: Scan, cli: set<Id>, b: Block, cond: seq<Frame>)
    ensures MeaningOne(WithCond(st, cond), cli, b) ==
            var r := MeaningOne(st, cli, b); if r.Err? then r else Ok(WithCond(r.value, cond))
    decreases b
  {
    match b
    case Plain(labels, body) => TextUnderStack(st, cli, labels, body, cond);
    case Cond(_, body, others) =>
      MeaningUnderStack(st, cli, body, cond);
      if others.ElsePart? {
        MeaningUnderStack(st, cli, others.body, cond);
      }
  }

  lemma TextUnderStack(st: Scan, cli: set<Id>, labels: seq<Id>, body: Body, cond: seq<Frame>)
    ensures ScanText(WithCond(st, cond), cli, labels, body) ==
            var r := ScanText(st, cli, labels, body); if r.Err? then r else Ok(WithCond(r.value, cond))
  {
    LabelsUnderStack(st, labels, cond);
  }

  lemma {:induction false} LabelsUnderStack(st: Scan, labels: seq<Id>, cond: seq<Frame>)
    ensures ScanLabels(WithCond(st, cond), labels) ==
            var r := ScanLabels(st, labels); if r.Err? then r else Ok(WithCond(r.value, cond))
    decreases |labels|
  {
    if labels != [] {
      LabelsUnderStack(Scan(st.consts, st.labels[labels[0] := st.pc], st.cond, st.pc, st.kept, st.data, st.inData),
        labels[1..], cond);
    }
  }

  /** The lines of an active branch, under its frame, and then the rest skipped. */
  lemma {:induction false} TakenBranch(st: Scan, cli: set<Id>, f: Frame, body: Blocks, others: Others)
    requires Active(st.cond) && f.active && f.taken
    ensures var inner := WithCond(st, st.cond + [f]);
            var r := ScanLines(inner, cli, Flatten(body));
            (if r.Err? then r else ScanLines(r.value, cli, FlattenOthers(others) + [EndIf])) == Meaning(st, cli, body)
    ensures Meaning(st, cli, body).Ok? ==> Meaning(st, cli, body).value.cond == st.cond
    decreases body, 1
  {
    var inner := WithCond(st, st.cond + [f]);
    Deeper(st.cond, f);
    StackIsMeaning(inner, cli, body);
    MeaningUnderStack(st, cli, body, st.cond + [f]);
    StackOfMeaning(st, cli, body);
    var r := Meaning(st, cli, body);
    if r.Ok? {
      assert WithCond(r.value, st.cond + [f]) == WithCond(r.value, r.value.cond + [f]);
      SkippedOthers(r.value, cli, f, others);
    }
  }

  lemma {:induction false} StackOfMeaning(st: Scan, cli: set<Id>, bs: Blocks)
    ensures Meaning(st, cli, bs).Ok? ==> Meaning(st, cli, bs).value.cond == st.cond
  {
    MeaningUnderStack(st, cli, bs, st.cond);
    assert WithCond(st, st.cond) == st;
  }

  /** After a false condition the first `.else` part is active and no other. */
  lemma {:induction false} FirstElse(st: Scan, cli: set<Id>, o: Others)
    requires Active(st.cond)
    ensures ScanLines(WithCond(st, st.cond + [Frame(false, false)]), cli, FlattenOthers(o) + [EndIf]) ==
            if o.ElsePart? then Meaning(st, cli, o.body) else Ok(st)
    ensures o.ElsePart? && Meaning(st, cli, o.body).Ok? ==> Meaning(st, cli, o.body).value.cond == st.cond
    decreases o, 1
  {
    var f := Frame(false, false);
    var here := WithCond(st, st.cond + [f]);
    match o
    case NoElse => SkippedOthers(st, cli, f, o);
    case ElsePart(body, more) =>
      var g := Frame(true, true);
      var next := WithCond(st, st.cond + [g]);
      assert FlattenOthers(o) + [EndIf] == [Else] + (Flatten(body) + (FlattenOthers(more) + [EndIf]));
      ScanAppend(here, cli, [Else], Flatten(body) + (FlattenOthers(more) + [EndIf]));
      ScanOne(here, cli, Else);
      assert (st.cond + [f])[..|st.cond|] == st.cond;
      ScanAppend(next, cli, Flatten(body), FlattenOthers(more) + [EndIf]);
      TakenBranch(st, cli, g, body, more);
  }

  // ------------------------------------------------------------ which sources have blocks

  /** Under `depth` open conditionals, every directive has its partner and every `.if` an
      expression. */
  predicate Balanced(lines: seq<Line>, depth: nat)
    decreases |lines|
  {
    if lines == [] then depth == 0
    else match lines[0]
      case If(e) => e.Some? && Balanced(lines[1..], depth + 1)
      case Else => depth > 0 && Balanced(lines[1..], depth)
      case EndIf => depth > 0 && Balanced(lines[1..], depth - 1)
      case Text(_, _) => Balanced(lines[1..], depth)
  }

  predicate EndsPart(lines: seq<Line>) {
    lines == [] || lines[0].Else? || lines[0].EndIf?
  }

  /** The blocks up to the end of the part. */
  lemma {:induction false} Blocked(lines: seq<Line>, depth: nat) returns (bs: Blocks, rest: seq<Line>)
    requires Balanced(lines, depth)
    ensures lines == Flatten(bs) + rest && Balanced(rest, depth) && EndsPart(rest)
    decreases |lines|, 0
  {
    if EndsPart(lines) {
      return Done, lines;
    }
    match lines[0]
    case Text(labels, body) =>
      var tail;
      tail, rest := Blocked(lines[1..], depth);
      bs := Then(Plain(labels, body), tail);
    case If(e) =>
      var body, after := Blocked(lines[1..], depth + 1);
      assert |lines| == 1 + |Flatten(body)| + |after|;
      var others, next := OthersOf(after, depth);
      var tail;
      tail, rest := Blocked(next, depth);
      bs := Then(Cond(e.value, body, others), tail);
      assert lines == [lines[0]] + lines[1..];
  }

  /** The `.else` parts up to the matching `.endif`. */
  lemma {:induction false} OthersOf(lines: seq<Line>, depth: nat) returns (o: Others, rest: seq<Line>)
    requires Balanced(lines, depth + 1) && EndsPart(lines)
    ensures lines == FlattenOthers(o) + [EndIf] + rest && Balanced(rest, depth)
    decreases |lines|, 1
  {
    if lines[0].EndIf? {
      return NoElse, lines[1..];
    }
    var body, after := Blocked(lines[1..], depth + 1);
    assert |lines| == 1 + |Flatten(body)| + |after|;
    var more;
    more, rest := OthersOf(after, depth);
    o := ElsePart(body, more);
    assert lines == [lines[0]] + lines[1..];
  }

  lemma {:induction false} FlattenBalanced(bs: Blocks, rest: seq<Line>, depth: nat)
    ensures Balanced(Flatten(bs) + rest, depth) <==> Balanced(rest, depth)
    decreases bs
  {
    match bs
    case Done => assert Flatten(bs) + rest == rest;
    case Then(Plain(labels, body), tail) =>
      assert Flatten(bs) + rest == [Text(labels, body)] + (Flatten(tail) + rest);
      FlattenBalanced(tail, rest, depth);
    case Then(Cond(cond, body, others), tail) =>
      var after := FlattenOthers(others) + ([EndIf] + (Flatten(tail) + rest));
      assert Flatten(bs) + rest == [If(Some(cond))] + (Flatten(body) + after);
      FlattenBalanced(body, after, depth + 1);
      OthersBalanced(others, Flatten(tail) + rest, depth);
      FlattenBalanced(tail, rest, depth);
  }

  lemma {:induction false} OthersBalanced(o: Others, rest: seq<Line>, depth: nat)
    ensures Balanced(FlattenOthers(o) + ([EndIf] + rest), depth + 1) <==> Balanced(rest, depth)
    decreases o
  {
    var lines := FlattenOthers(o) + ([EndIf] + rest);
    match o
    case NoElse => assert lines[1..] == rest;
    case ElsePart(body, more) =>
      assert lines[1..] == Flatten(body) + (FlattenOthers(more) + ([EndIf] + rest));
      FlattenBalanced(body, FlattenOthers(more) + ([EndIf] + rest), depth + 1);
      OthersBalanced(more, rest, depth);
  }

  /** A source has a block structure exactly if its directives are balanced. */
  lemma BlocksExactly(lines: seq<Line>)
    ensures Balanced(lines, 0) <==> exists bs :: Flatten(bs) == lines
  {
    if Balanced(lines, 0) {
      var bs, rest := Blocked(lines, 0);
      assert Flatten(bs) == lines;
    }
    forall bs | Flatten(bs) == lines ensures Balanced(lines, 0) {
      FlattenBalanced(bs, [], 0);
      assert Flatten(bs) + [] == lines;
    }
  }

  lemma {:induction false} ScannedBalanced(st: Scan, cli: set<Id>, lines: seq<Line>)
    requires ScanLines(st, cli, lines).Ok? && ScanLines(st, cli, lines).value.cond == []
    ensures Balanced(lines, |st.cond|)
    decreases |lines|
  {
    if lines != [] {
      var r := ScanLine(st, cli, lines[0]);
      if lines[0].Text? && Active(st.cond) {
        TextKeepsStack(st, cli, lines[0].labels, lines[0].body);
      }
      hide Eval, ScanText;
      ScannedBalanced(r.value, cli, lines[1..]);
    }
  }

  /** Exactly the sources the first pass accepts: the flattenings of block structures that
      have a meaning within the program region, and its result is that meaning. Every
      other source is refused. */
  lemma AcceptedExactly(consts: Names, cli: set<Id>, lines: seq<Line>)
    ensures var start := Scan(consts, map[], [], 0, [], [], false);
            && (forall bs :: Flatten(bs) == lines && FirstPass(consts, cli, lines).Ok? ==>
                  FirstPass(consts, cli, lines) == Meaning(start, cli, bs))
            && (FirstPass(consts, cli, lines).Ok? <==>
                  exists bs :: Flatten(bs) == lines && Meaning(start, cli, bs).Ok?
                               && Meaning(start, cli, bs).value.pc <= PROGRAM_WORDS)
  {
    var start := Scan(consts, map[], [], 0, [], [], false);
    hide Meaning, ScanLines;
    forall bs | Flatten(bs) == lines ensures ScanLines(start, cli, lines) == Meaning(start, cli, bs) {
      StackIsMeaning(start, cli, bs);
    }
    if FirstPass(consts, cli, lines).Ok? {
      ScannedBalanced(start, cli, lines);
      BlocksExactly(lines);
    }
    forall bs | Flatten(bs) == lines && Meaning(start, cli, bs).Ok? ensures Meaning(start, cli, bs).value.cond == [] {
      StackIsMeaning(start, cli, bs);
    }
  }
}
