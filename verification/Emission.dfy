/** Flat code with symbolic labels: how a structured program is written out, and
    why looking the labels up puts every item where the structure says. */
module Emission {
  import opened Bits
  import opened Isa
  import opened Runs
  import opened Structured

  datatype Label = Generated(n: nat) | SubStart | SubReturn | HaltLabel | BlockStart(n: nat) | LoopStart(n: nat)
    | LoopDone(n: nat)

  datatype Code =
    | Fixed(word: Word)
    | CallSub
    | BranchTo(cond: nat, to: Label)
    | LoopTo(to: Label, reg: nat)

  /** One word, and the labels that name its address. */
  datatype Entry = Entry(labels: seq<Label>, code: Code)

  /** Entries so far, labels waiting for the next entry, and the label counter. */
  datatype Draft = Draft(out: seq<Entry>, pending: seq<Label>, uid: nat)

  function Push(d: Draft, l: Label): Draft {
    d.(pending := d.pending + [l])
  }

  function Append(d: Draft, code: Code): Draft {
    Draft(d.out + [Entry(d.pending, code)], [], d.uid)
  }

  function Fresh(d: Draft, k: nat): Label {
    Generated(d.uid + k)
  }

  function Skip(d: Draft, k: nat): Draft {
    d.(uid := d.uid + k)
  }

  // ------------------------------------------------------------ emission

  /** Where `continue` and `break` lead from inside the sequence being written. */
  datatype Exits = Exits(cont: Label, brk: Label)

  function Starts(d: Draft, n: nat): (ls: seq<Label>)
    ensures |ls| == n
  {
    seq(n, k requires 0 <= k < n => Fresh(d, k + 1))
  }

  function LabelOf(target: Target, starts: seq<Label>, exits: Exits): Label {
    match target
    case Sibling(j) => if j < |starts| then starts[j] else exits.cont
    case Continue => exits.cont
    case Break => exits.brk
  }

  function LoopHead(d: Draft, it: Item): Draft
    requires it.Loop? && it.reg < 4 && it.count < 256
  {
    Push(Skip(Append(d, Fixed(Encode(Ldi(it.reg, it.count)))), 3), Fresh(d, 1))
  }

  /** A branch has exactly one flag-setting word before it; a loop has a register
      and a byte-sized count. */
  predicate EmittableItem(it: Item) {
    match it
    case Branch(pre, cond, _) => |pre| == 1 && cond < 4
    case Loop(reg, count, body) => reg < 4 && count < 256 && Emittable(body)
    case _ => true
  }

  predicate Emittable(items: seq<Item>) {
    forall i :: 0 <= i < |items| ==> EmittableItem(items[i])
  }

  function EmitItem(it: Item, k: nat, starts: seq<Label>, d: Draft, exits: Exits): Draft
    requires k < |starts| && EmittableItem(it)
    decreases it
  {
    var d1 := Push(d, starts[k]);
    match it
    case Leaf(w) => Append(d1, Fixed(w))
    case Call => Append(d1, CallSub)
    case Branch(pre, cond, target) =>
      Append(Append(d1, Fixed(pre[0])), BranchTo(cond, LabelOf(target, starts, exits)))
    case Loop(_, _, body) =>
      LoopTail(d1, it, EmitSeq(body, LoopHead(d1, it), Exits(Fresh(d1, 2), Fresh(d1, 3))))
  }

  /** `d1` is the draft before the loop, `d2` the one after its body. */
  function LoopTail(d1: Draft, it: Item, d2: Draft): Draft
    requires it.Loop?
  {
    Push(Append(Push(d2, Fresh(d1, 2)), LoopTo(Fresh(d1, 1), it.reg)), Fresh(d1, 3))
  }

  /** The draft after the first `i` items. */
  function EmitTo(items: seq<Item>, i: nat, starts: seq<Label>, d: Draft, exits: Exits): Draft
    requires i <= |items| <= |starts| && Emittable(items)
    decreases items, 0, i
  {
    if i == 0 then d
    else EmitItem(items[i - 1], i - 1, starts, EmitTo(items, i - 1, starts, d, exits), exits)
  }

  function EmitSeq(items: seq<Item>, d: Draft, exits: Exits): Draft
    requires Emittable(items)
    decreases items, 1
  {
    EmitTo(items, |items|, Starts(d, |items|), Skip(d, |items|), exits)
  }

  // ------------------------------------------------------------ growth

  /** `e` continues `d`: nothing written is ever changed. */
  predicate Extends(d: Draft, e: Draft) {
    d.out <= e.out && d.uid <= e.uid
  }

  lemma {:induction false} EmitItemGrows(it: Item, k: nat, starts: seq<Label>, d: Draft, exits: Exits)
    requires k < |starts| && EmittableItem(it)
    ensures var e := EmitItem(it, k, starts, d, exits); Extends(d, e) && |e.out| == |d.out| + ItemSize(it)
    decreases it
  {
    if it.Loop? {
      var d1 := Push(d, starts[k]);
      EmitSeqGrows(it.body, LoopHead(d1, it), Exits(Fresh(d1, 2), Fresh(d1, 3)));
    }
  }

  lemma {:induction false} EmitToGrows(items: seq<Item>, i: nat, starts: seq<Label>, d: Draft, exits: Exits)
    requires i <= |items| <= |starts| && Emittable(items)
    ensures var e := EmitTo(items, i, starts, d, exits); Extends(d, e) && |e.out| == |d.out| + Start(items, i)
    decreases items, 0, i
  {
    if i > 0 {
      EmitToGrows(items, i - 1, starts, d, exits);
      EmitItemGrows(items[i - 1], i - 1, starts, EmitTo(items, i - 1, starts, d, exits), exits);
    }
  }

  lemma {:induction false} EmitSeqGrows(items: seq<Item>, d: Draft, exits: Exits)
    requires Emittable(items)
    ensures var e := EmitSeq(items, d, exits);
      Extends(d, e) && |e.out| == |d.out| + SeqSize(items) && e.uid >= d.uid + |items|
    decreases items, 1
  {
    EmitToGrows(items, |items|, Starts(d, |items|), Skip(d, |items|), exits);
  }

  // ------------------------------------------------------------ label tables

  const PROGRAM_WORD_LIMIT := 256

  type Table = map<Label, nat>

  predicate Names(table: Table, ls: seq<Label>, a: nat) {
    forall l :: l in ls ==> l in table && table[l] == a
  }

  /** The table gives every label the address of the entry that carries it. */
  predicate Agrees(table: Table, d: Draft) {
    && (forall k :: 0 <= k < |d.out| ==> Names(table, d.out[k].labels, k))
    && Names(table, d.pending, |d.out|)
  }

  lemma AgreesPush(table: Table, d: Draft, l: Label)
    requires Agrees(table, Push(d, l))
    ensures Agrees(table, d) && l in table && table[l] == |d.out|
  {
    assert forall m :: m in d.pending ==> m in Push(d, l).pending;
    assert l in Push(d, l).pending;
  }

  lemma AgreesAppend(table: Table, d: Draft, code: Code)
    requires Agrees(table, Append(d, code))
    ensures Agrees(table, d)
  {
    var e := Append(d, code);
    assert e.out[|d.out|].labels == d.pending;
    forall k | 0 <= k < |d.out|
      ensures Names(table, d.out[k].labels, k)
    {
      assert e.out[k] == d.out[k];
    }
  }

  lemma {:induction false} AgreesItem(table: Table, it: Item, k: nat, starts: seq<Label>, d: Draft, exits: Exits)
    requires k < |starts| && EmittableItem(it) && Agrees(table, EmitItem(it, k, starts, d, exits))
    ensures Agrees(table, d) && starts[k] in table && table[starts[k]] == |d.out|
    ensures it.Loop? ==> AgreesLoop(table, it, Push(d, starts[k]))
    decreases it
  {
    var d1 := Push(d, starts[k]);
    match it {
      case Leaf(w) => AgreesAppend(table, d1, Fixed(w));
      case Call => AgreesAppend(table, d1, CallSub);
      case Branch(pre, cond, target) =>
        AgreesAppend(table, Append(d1, Fixed(pre[0])), BranchTo(cond, LabelOf(target, starts, exits)));
        AgreesAppend(table, d1, Fixed(pre[0]));
      case Loop(_, _, body) =>
        var d2 := EmitSeq(body, LoopHead(d1, it), Exits(Fresh(d1, 2), Fresh(d1, 3)));
        AgreesPush(table, Append(Push(d2, Fresh(d1, 2)), LoopTo(Fresh(d1, 1), it.reg)), Fresh(d1, 3));
        AgreesAppend(table, Push(d2, Fresh(d1, 2)), LoopTo(Fresh(d1, 1), it.reg));
        AgreesPush(table, d2, Fresh(d1, 2));
        AgreesTo(table, body, |body|, 0, Starts(LoopHead(d1, it), |body|), Skip(LoopHead(d1, it), |body|),
          Exits(Fresh(d1, 2), Fresh(d1, 3)));
        var d0 := Append(d1, Fixed(Encode(Ldi(it.reg, it.count))));
        AgreesPush(table, Skip(d0, 3), Fresh(d1, 1));
        AgreesAppend(table, d1, Fixed(Encode(Ldi(it.reg, it.count))));
        EmitSeqGrows(body, LoopHead(d1, it), Exits(Fresh(d1, 2), Fresh(d1, 3)));
    }
    AgreesPush(table, d, starts[k]);
  }

  /** The three labels of a loop that starts at draft `d1`. */
  predicate AgreesLoop(table: Table, it: Item, d1: Draft)
    requires it.Loop? && EmittableItem(it)
  {
    var a := |d1.out|;
    && Fresh(d1, 1) in table && table[Fresh(d1, 1)] == a + 1
    && Fresh(d1, 2) in table && table[Fresh(d1, 2)] == a + 1 + SeqSize(it.body)
    && Fresh(d1, 3) in table && table[Fresh(d1, 3)] == a + 2 + SeqSize(it.body)
    && Agrees(table, EmitSeq(it.body, LoopHead(d1, it), Exits(Fresh(d1, 2), Fresh(d1, 3))))
  }

  lemma {:induction false} AgreesTo(table: Table, items: seq<Item>, i: nat, j: nat, starts: seq<Label>, d: Draft,
                                    exits: Exits)
    requires j <= i <= |items| <= |starts| && Emittable(items) && Agrees(table, EmitTo(items, i, starts, d, exits))
    ensures Agrees(table, EmitTo(items, j, starts, d, exits))
    decreases items, 0, i
  {
    if j < i {
      AgreesItem(table, items[i - 1], i - 1, starts, EmitTo(items, i - 1, starts, d, exits), exits);
      AgreesTo(table, items, i - 1, j, starts, d, exits);
    }
  }

  // ------------------------------------------------------------ resolved code

  function Lookup(table: Table, l: Label): nat {
    if l in table then table[l] else 0
  }

  function Resolve(code: Code, table: Table): Word {
    match code
    case Fixed(w) => w
    case CallSub => Encode(Instr.Branch(COND_CALL, Lookup(table, SubStart)))
    case BranchTo(cond, l) => Encode(Instr.Branch(cond, Lookup(table, l)))
    case LoopTo(l, reg) => Encode(Instr.Loop(Lookup(table, l), reg))
  }

  /** The program agrees with the resolved entries. */
  predicate Matches(prog: Program, table: Table, out: seq<Entry>) {
    forall k :: 0 <= k < |out| ==> Fetch(prog, k) == Resolve(out[k].code, table)
  }

  /** What the surroundings of a sequence promise about the labels it refers to. */
  predicate ExitsOk(table: Table, exits: Exits, end: nat, brk: nat, inLoop: bool, calls: bool, sub: nat) {
    && end < 511 && Lookup(table, exits.cont) == end
    && (inLoop ==> Lookup(table, exits.brk) == brk < 512)
    && (calls ==> Lookup(table, SubStart) == sub < 512)
  }

  lemma MatchesPrefix(prog: Program, table: Table, d: Draft, e: Draft)
    requires Extends(d, e) && Matches(prog, table, e.out)
    ensures Matches(prog, table, d.out)
  {
    forall k | 0 <= k < |d.out|
      ensures Fetch(prog, k) == Resolve(d.out[k].code, table)
    {
      assert d.out[k] == e.out[k];
    }
  }

  lemma BranchTarget(table: Table, items: seq<Item>, starts: seq<Label>, base: nat, exits: Exits, i: nat, brk: nat,
                     inLoop: bool, calls: bool, sub: nat)
    requires i < |items| == |starts| && items[i].Branch? && GoodTarget(items[i].target, i, |items|, inLoop)
    requires ExitsOk(table, exits, base + SeqSize(items), brk, inLoop, calls, sub)
    requires forall j :: 0 <= j < |items| ==> starts[j] in table && table[starts[j]] == base + Start(items, j)
    ensures Lookup(table, LabelOf(items[i].target, starts, exits))
         == TargetAddress(items, base, items[i].target, base + SeqSize(items), brk) < 512
  {
    if items[i].target.Sibling? {
      StartMonotone(items, items[i].target.index, |items|);
    }
  }

  /** Written out and looked up, a sequence is where its structure says it is. */
  lemma {:induction false} EmitPlaced(prog: Program, table: Table, items: seq<Item>, d: Draft, exits: Exits, brk: nat,
                                      sub: nat,
                                      live: set<nat>, inLoop: bool, calls: bool, kept: set<nat>)
    requires Emittable(items) && WellFormed(items, live, inLoop, calls, kept)
    requires Agrees(table, EmitSeq(items, d, exits)) && Matches(prog, table, EmitSeq(items, d, exits).out)
    requires ExitsOk(table, exits, |d.out| + SeqSize(items), brk, inLoop, calls, sub)
    ensures Placed(prog, items, |d.out|, |d.out| + SeqSize(items), brk, sub)
    decreases items, 1
  {
    var starts := Starts(d, |items|);
    forall j | 0 <= j < |items|
      ensures starts[j] in table && table[starts[j]] == |d.out| + Start(items, j)
    {
      ItemEmitted(prog, table, items, j, d, exits);
    }
    var base, end := |d.out|, |d.out| + SeqSize(items);
    forall i | 0 <= i < |items|
      ensures PlacedAt(prog, items, i, base, end, brk, sub)
    {
      EmitPlacedAt(prog, table, items, i, d, exits, brk, sub, live, inLoop, calls, kept);
    }
    assert Placed(prog, items, base, end, brk, sub);
  }

  /** The draft just before item `i`. */
  function Before(items: seq<Item>, i: nat, d: Draft, exits: Exits): Draft
    requires i <= |items| && Emittable(items)
  {
    EmitTo(items, i, Starts(d, |items|), Skip(d, |items|), exits)
  }

  lemma ItemEmitted(prog: Program, table: Table, items: seq<Item>, i: nat, d: Draft, exits: Exits)
    requires i < |items| && Emittable(items)
    requires Agrees(table, EmitSeq(items, d, exits)) && Matches(prog, table, EmitSeq(items, d, exits).out)
    ensures var di, starts := Before(items, i, d, exits), Starts(d, |items|);
      && |di.out| == |d.out| + Start(items, i)
      && Matches(prog, table, EmitItem(items[i], i, starts, di, exits).out)
      && starts[i] in table && table[starts[i]] == |di.out|
      && (items[i].Loop? ==> AgreesLoop(table, items[i], Push(di, starts[i])))
  {
    var starts, d0, di := Starts(d, |items|), Skip(d, |items|), Before(items, i, d, exits);
    EmitToGrows(items, i, starts, d0, exits);
    AgreesTo(table, items, |items|, i + 1, starts, d0, exits);
    AgreesItem(table, items[i], i, starts, di, exits);
    ExtendsTo(items, i + 1, |items|, starts, d0, exits);
    MatchesPrefix(prog, table, EmitItem(items[i], i, starts, di, exits), EmitSeq(items, d, exits));
  }

  lemma ItemFacts(items: seq<Item>, i: nat, base: nat, live: set<nat>, inLoop: bool, calls: bool, kept: set<nat>)
    requires i < |items| && Emittable(items) && WellFormed(items, live, inLoop, calls, kept)
    ensures EmittableItem(items[i]) && base + Start(items, i) + ItemSize(items[i]) <= base + SeqSize(items)
    ensures items[i].Branch? ==> GoodTarget(items[i].target, i, |items|, inLoop)
    ensures items[i].Call? ==> calls
    ensures items[i].Loop? ==> WellFormed(items[i].body, live + {items[i].reg}, true, calls, kept)
                               && ItemSize(items[i]) == SeqSize(items[i].body) + 2
  {
    assert WellFormedAt(items, i, live, inLoop, calls, kept);
    StartMonotone(items, i + 1, |items|);
    hide WellFormed, SafeLeaf;
  }

  lemma ExitFacts(table: Table, exits: Exits, end: nat, brk: nat, inLoop: bool, calls: bool, sub: nat)
    requires ExitsOk(table, exits, end, brk, inLoop, calls, sub)
    ensures end < 511 && (calls ==> Lookup(table, SubStart) == sub < 512)
  {
  }

  /** What a loop writes, and where. */
  lemma LoopEmission(it: Item, k: nat, starts: seq<Label>, d: Draft, exits: Exits)
    requires k < |starts| && it.Loop? && EmittableItem(it)
    ensures var d1 := Push(d, starts[k]);
      && it.reg < 4 && it.count < 256 && Emittable(it.body) && |d1.out| == |d.out|
      && EmitItem(it, k, starts, d, exits) ==
         LoopTail(d1, it, EmitSeq(it.body, LoopHead(d1, it), Exits(Fresh(d1, 2), Fresh(d1, 3))))
  {
    hide EmitSeq, LoopHead, LoopTail, Fresh;
  }

  lemma LoopIsPlaced(prog: Program, items: seq<Item>, i: nat, base: nat, end: nat, brk: nat, sub: nat)
    requires i < |items| && items[i].Loop?
    requires var it, a := items[i], base + Start(items, i);
      var lp := a + 1 + SeqSize(it.body);
      && Decode(Fetch(prog, a)) == Ldi(it.reg, it.count)
      && Placed(prog, it.body, a + 1, lp, lp + 1, sub)
      && Decode(Fetch(prog, lp)) == Instr.Loop(a + 1, it.reg)
    ensures PlacedAt(prog, items, i, base, end, brk, sub)
  {
    hide Placed, Decode, Start, SeqSize;
  }

  lemma {:induction false} EmitPlacedAt(prog: Program, table: Table, items: seq<Item>, i: nat, d: Draft, exits: Exits,
                                        brk: nat, sub: nat,
                                        live: set<nat>, inLoop: bool, calls: bool, kept: set<nat>)
    requires i < |items| && Emittable(items) && WellFormed(items, live, inLoop, calls, kept)
    requires Agrees(table, EmitSeq(items, d, exits)) && Matches(prog, table, EmitSeq(items, d, exits).out)
    requires ExitsOk(table, exits, |d.out| + SeqSize(items), brk, inLoop, calls, sub)
    requires forall j :: 0 <= j < |items| ==>
      Starts(d, |items|)[j] in table && table[Starts(d, |items|)[j]] == |d.out| + Start(items, j)
    ensures PlacedAt(prog, items, i, |d.out|, |d.out| + SeqSize(items), brk, sub)
    decreases items, 0
  {
    hide *;
    var starts, di := Starts(d, |items|), Before(items, i, d, exits);
    ItemEmitted(prog, table, items, i, d, exits);
    ItemFacts(items, i, |d.out|, live, inLoop, calls, kept);
    ExitFacts(table, exits, |d.out| + SeqSize(items), brk, inLoop, calls, sub);
    if items[i].Loop? {
      LoopEmission(items[i], i, starts, di, exits);
      EmitPlacedLoop(prog, table, items[i], Push(di, starts[i]), sub, live, calls, kept);
      LoopIsPlaced(prog, items, i, |d.out|, |d.out| + SeqSize(items), brk, sub);
    } else {
      if items[i].Branch? {
        BranchTarget(table, items, starts, |d.out|, exits, i, brk, inLoop, calls, sub);
      }
      EmitPlacedFlat(prog, table, items, i, di, exits, starts, |d.out|, brk, sub);
    }
  }

  /** The items other than loops. */
  lemma EmitPlacedFlat(prog: Program, table: Table, items: seq<Item>, i: nat, di: Draft, exits: Exits,
                       starts: seq<Label>,
                       base: nat, brk: nat, sub: nat)
    requires i < |items| == |starts| && EmittableItem(items[i]) && !items[i].Loop?
    requires |di.out| == base + Start(items, i)
    requires Matches(prog, table, EmitItem(items[i], i, starts, di, exits).out)
    requires items[i].Call? ==> Lookup(table, SubStart) == sub < 512
    requires items[i].Branch? ==>
      Lookup(table, LabelOf(items[i].target, starts, exits)) ==
        TargetAddress(items, base, items[i].target, base + SeqSize(items), brk) < 512
    ensures PlacedAt(prog, items, i, base, base + SeqSize(items), brk, sub)
  {
    var e, a := EmitItem(items[i], i, starts, di, exits), |di.out|;
    match items[i]
    case Leaf(w) => assert e.out[a].code == Fixed(w);
    case Call =>
      assert e.out[a].code == CallSub;
      DecodeEncode(Instr.Branch(COND_CALL, sub));
    case Branch(pre, cond, target) =>
      assert e.out[a].code == Fixed(pre[0]);
      assert e.out[a + 1].code == BranchTo(cond, LabelOf(target, starts, exits));
      DecodeEncode(Instr.Branch(cond, TargetAddress(items, base, target, base + SeqSize(items), brk)));
  }

  lemma {:induction false} ExtendsTo(items: seq<Item>, i: nat, j: nat, starts: seq<Label>, d: Draft, exits: Exits)
    requires i <= j <= |items| <= |starts| && Emittable(items)
    ensures Extends(EmitTo(items, i, starts, d, exits), EmitTo(items, j, starts, d, exits))
    decreases j
  {
    if i < j {
      ExtendsTo(items, i, j - 1, starts, d, exits);
      EmitItemGrows(items[j - 1], j - 1, starts, EmitTo(items, j - 1, starts, d, exits), exits);
    }
  }

  lemma {:induction false} EmitPlacedLoop(prog: Program, table: Table, it: Item, d1: Draft, sub: nat,
                                          live: set<nat>, calls: bool, kept: set<nat>)
    requires it.Loop? && EmittableItem(it) && WellFormed(it.body, live + {it.reg}, true, calls, kept)
    requires AgreesLoop(table, it, d1)
    requires var body := EmitSeq(it.body, LoopHead(d1, it), Exits(Fresh(d1, 2), Fresh(d1, 3)));
      Matches(prog, table, LoopTail(d1, it, body).out)
    requires |d1.out| + SeqSize(it.body) + 2 < 511
    requires calls ==> Lookup(table, SubStart) == sub < 512
    ensures var a, lp := |d1.out|, |d1.out| + 1 + SeqSize(it.body);
      && Decode(Fetch(prog, a)) == Ldi(it.reg, it.count)
      && Placed(prog, it.body, a + 1, lp, lp + 1, sub)
      && Decode(Fetch(prog, lp)) == Instr.Loop(a + 1, it.reg)
    decreases it.body, 2
  {
    var inner := Exits(Fresh(d1, 2), Fresh(d1, 3));
    var head, body := LoopHead(d1, it), EmitSeq(it.body, LoopHead(d1, it), inner);
    var tail := LoopTail(d1, it, body);
    EmitSeqGrows(it.body, head, inner);
    MatchesPrefix(prog, table, body, tail);
    EmitPlaced(prog, table, it.body, head, inner, |d1.out| + 2 + SeqSize(it.body), sub, live + {it.reg}, true, calls,
      kept);
    assert tail.out[|d1.out|] == head.out[|d1.out|];
    assert tail.out[|body.out|].code == LoopTo(Fresh(d1, 1), it.reg);
    DecodeEncode(Ldi(it.reg, it.count));
    DecodeEncode(Instr.Loop(|d1.out| + 1, it.reg));
  }

  // ------------------------------------------------------------ unique labels

  function LabelsOf(out: seq<Entry>): multiset<Label> {
    if out == [] then multiset{} else LabelsOf(out[..|out| - 1]) + multiset(out[|out| - 1].labels)
  }

  /** All labels placed or waiting, with multiplicity. */
  function AllLabels(d: Draft): multiset<Label> {
    LabelsOf(d.out) + multiset(d.pending)
  }

  lemma {:induction false} LabelsOfConcat(a: seq<Entry>, b: seq<Entry>)
    ensures LabelsOf(a + b) == LabelsOf(a) + LabelsOf(b)
    decreases |b|
  {
    if b == [] {
      assert a + b == a;
    } else {
      LabelsOfConcat(a, b[..|b| - 1]);
      assert (a + b)[..|a + b| - 1] == a + b[..|b| - 1];
    }
  }

  predicate Once(m: multiset<Label>) {
    forall l :: l in m ==> m[l] == 1
  }

  /** Only labels generated so far. */
  predicate Below(m: multiset<Label>, uid: nat) {
    forall l :: l in m && l.Generated? ==> l.n <= uid
  }

  lemma AllLabelsAppend(d: Draft, code: Code)
    ensures AllLabels(Append(d, code)) == AllLabels(d)
  {
    var e := Append(d, code);
    assert e.out[..|e.out| - 1] == d.out;
  }

  lemma AllLabelsPush(d: Draft, l: Label)
    ensures AllLabels(Push(d, l)) == AllLabels(d) + multiset{l}
  {
  }

  /** Labels are unique, none is numbered above the counter; `reserved` are labels
      handed out but not placed yet. */
  predicate Unique(d: Draft, reserved: multiset<Label>) {
    Once(AllLabels(d) + reserved) && Below(AllLabels(d) + reserved, d.uid)
  }

  lemma {:induction false} EmitItemUnique(it: Item, k: nat, starts: seq<Label>, d: Draft, exits: Exits,
                                          reserved: multiset<Label>)
    requires k < |starts| && EmittableItem(it) && Unique(d, reserved + multiset{starts[k]})
    ensures Unique(EmitItem(it, k, starts, d, exits), reserved)
    decreases it
  {
    var d1 := Push(d, starts[k]);
    AllLabelsPush(d, starts[k]);
    assert AllLabels(d1) + reserved == AllLabels(d) + (reserved + multiset{starts[k]});
    match it {
      case Leaf(w) => AllLabelsAppend(d1, Fixed(w));
      case Call => AllLabelsAppend(d1, CallSub);
      case Branch(pre, cond, target) =>
        AllLabelsAppend(d1, Fixed(pre[0]));
        AllLabelsAppend(Append(d1, Fixed(pre[0])), BranchTo(cond, LabelOf(target, starts, exits)));
      case Loop(_, _, body) =>
        LoopHeadUnique(it, d1, reserved);
        var both := multiset{Fresh(d1, 2)} + multiset{Fresh(d1, 3)};
        var inner := Exits(Fresh(d1, 2), Fresh(d1, 3));
        EmitSeqUnique(body, LoopHead(d1, it), inner, reserved + both);
        LoopTailUnique(it, d1, EmitSeq(body, LoopHead(d1, it), inner), reserved);
    }
  }

  /** One new label. */
  lemma FreshUnique(d: Draft, reserved: multiset<Label>)
    requires Unique(d, reserved)
    ensures Unique(Skip(d, 1), reserved + multiset{Fresh(d, 1)})
  {
    var prior := AllLabels(d) + reserved;
    var all := AllLabels(Skip(d, 1)) + (reserved + multiset{Fresh(d, 1)});
    assert Fresh(d, 1) !in prior;
    assert all == prior + multiset{Fresh(d, 1)};
  }

  lemma LoopHeadUnique(it: Item, d1: Draft, reserved: multiset<Label>)
    requires it.Loop? && it.reg < 4 && it.count < 256 && Unique(d1, reserved)
    ensures Unique(LoopHead(d1, it), reserved + (multiset{Fresh(d1, 2)} + multiset{Fresh(d1, 3)}))
  {
    var ldi := Fixed(Encode(Ldi(it.reg, it.count)));
    var d2 := Append(d1, ldi);
    var f1, f2, f3 := multiset{Fresh(d1, 1)}, multiset{Fresh(d1, 2)}, multiset{Fresh(d1, 3)};
    HeadDrafts(it, d1);
    hide *;
    AllLabelsAppend(d1, ldi);
    SameLabels(d1, d2, reserved);
    FreshUnique(d2, reserved);
    FreshUnique(Skip(d2, 1), reserved + f1);
    FreshUnique(Skip(d2, 2), reserved + f1 + f2);
    AllLabelsPush(Skip(d2, 3), Fresh(d1, 1));
    assert AllLabels(LoopHead(d1, it)) + (reserved + (f2 + f3)) == AllLabels(Skip(d2, 3)) + (reserved + f1 + f2 + f3);
    UniqueRegrouped(Skip(d2, 3), reserved + f1 + f2 + f3, LoopHead(d1, it), reserved + (f2 + f3));
  }

  lemma HeadDrafts(it: Item, d1: Draft)
    requires it.Loop? && it.reg < 4 && it.count < 256
    ensures var d2 := Append(d1, Fixed(Encode(Ldi(it.reg, it.count))));
      && d2.uid == d1.uid && LoopHead(d1, it) == Push(Skip(d2, 3), Fresh(d1, 1))
      && LoopHead(d1, it).uid == Skip(d2, 3).uid
      && Skip(Skip(d2, 1), 1) == Skip(d2, 2) && Skip(Skip(d2, 2), 1) == Skip(d2, 3)
      && Fresh(d2, 1) == Fresh(d1, 1) && Fresh(Skip(d2, 1), 1) == Fresh(d1, 2) && Fresh(Skip(d2, 2), 1) == Fresh(d1, 3)
  {
  }

  lemma SameLabels(d: Draft, e: Draft, reserved: multiset<Label>)
    requires Unique(d, reserved) && AllLabels(e) == AllLabels(d) && e.uid == d.uid
    ensures Unique(e, reserved)
  {
    hide AllLabels, Once, Below;
  }

  /** Only the labels placed and reserved together matter. */
  lemma UniqueRegrouped(d: Draft, r: multiset<Label>, e: Draft, q: multiset<Label>)
    requires Unique(d, r) && AllLabels(e) + q == AllLabels(d) + r && e.uid == d.uid
    ensures Unique(e, q)
  {
    hide AllLabels, Once, Below;
  }

  lemma LoopTailUnique(it: Item, d1: Draft, d2: Draft, reserved: multiset<Label>)
    requires it.Loop? && Unique(d2, reserved + (multiset{Fresh(d1, 2)} + multiset{Fresh(d1, 3)}))
    ensures Unique(LoopTail(d1, it, d2), reserved)
  {
    var both := multiset{Fresh(d1, 2)} + multiset{Fresh(d1, 3)};
    AllLabelsPush(d2, Fresh(d1, 2));
    AllLabelsAppend(Push(d2, Fresh(d1, 2)), LoopTo(Fresh(d1, 1), it.reg));
    AllLabelsPush(Append(Push(d2, Fresh(d1, 2)), LoopTo(Fresh(d1, 1), it.reg)), Fresh(d1, 3));
    assert AllLabels(LoopTail(d1, it, d2)) + reserved == AllLabels(d2) + (reserved + both);
  }

  lemma {:induction false} EmitToUnique(items: seq<Item>, i: nat, starts: seq<Label>, d: Draft, exits: Exits,
                                        reserved: multiset<Label>)
    requires i <= |items| == |starts| && Emittable(items) && Unique(d, reserved + multiset(starts))
    ensures Unique(EmitTo(items, i, starts, d, exits), reserved + multiset(starts[i..]))
    decreases items, 0, i
  {
    if i == 0 {
      assert starts[0..] == starts;
    } else {
      EmitToUnique(items, i - 1, starts, d, exits, reserved);
      assert starts[i - 1..] == [starts[i - 1]] + starts[i..];
      assert reserved + multiset(starts[i - 1..]) == (reserved + multiset(starts[i..])) + multiset{starts[i - 1]};
      EmitItemUnique(items[i - 1], i - 1, starts, EmitTo(items, i - 1, starts, d, exits), exits,
        reserved + multiset(starts[i..]));
    }
  }

  lemma {:induction false} EmitSeqUnique(items: seq<Item>, d: Draft, exits: Exits, reserved: multiset<Label>)
    requires Emittable(items) && Unique(d, reserved)
    ensures Unique(EmitSeq(items, d, exits), reserved)
    decreases items, 1
  {
    var starts, d0 := Starts(d, |items|), Skip(d, |items|);
    StartsUnique(d, |items|, reserved);
    EmitToUnique(items, |items|, starts, d0, exits, reserved);
    assert starts[|items|..] == [];
    assert reserved + multiset(starts[|items|..]) == reserved;
  }

  lemma {:induction false} StartsUnique(d: Draft, n: nat, reserved: multiset<Label>)
    requires Unique(d, reserved)
    ensures Unique(Skip(d, n), reserved + multiset(Starts(d, n)))
    decreases n
  {
    if n == 0 {
      assert reserved + multiset(Starts(d, 0)) == reserved;
    } else {
      hide Unique;
      StartsUnique(d, n - 1, reserved);
      var before := reserved + multiset(Starts(d, n - 1));
      FreshUnique(Skip(d, n - 1), before);
      assert Skip(Skip(d, n - 1), 1) == Skip(d, n) && Fresh(Skip(d, n - 1), 1) == Fresh(d, n);
      assert Starts(d, n) == Starts(d, n - 1) + [Fresh(d, n)];
      assert reserved + multiset(Starts(d, n)) == before + multiset{Fresh(d, n)};
    }
  }

  // ------------------------------------------------------------ the label dictionary

  /** Enter one label after another. */
  function NameAll(table: Table, ls: seq<Label>, a: nat): Table
    decreases |ls|
  {
    if ls == [] then table else NameAll(table[ls[0] := a], ls[1..], a)
  }

  lemma {:induction false} NameAllLookup(table: Table, ls: seq<Label>, a: nat, l: Label)
    ensures l in ls ==> l in NameAll(table, ls, a) && NameAll(table, ls, a)[l] == a
    ensures l !in ls && l in table ==> l in NameAll(table, ls, a) && NameAll(table, ls, a)[l] == table[l]
    decreases |ls|
  {
    if ls != [] {
      NameAllLookup(table[ls[0] := a], ls[1..], a, l);
    }
  }

  /** The dictionary after the first `n` entries: later entries overwrite. */
  function Dictionary(out: seq<Entry>, n: nat): Table
    requires n <= |out|
  {
    if n == 0 then map[] else NameAll(Dictionary(out, n - 1), out[n - 1].labels, n - 1)
  }

  lemma {:induction false} LabelOccurs(out: seq<Entry>, k: nat, l: Label)
    requires k < |out| && l in out[k].labels
    ensures LabelsOf(out)[l] >= multiset(out[k].labels)[l] >= 1
    decreases |out|
  {
    assert l in multiset(out[k].labels);
    if k < |out| - 1 {
      assert out[..|out| - 1][k] == out[k];
      LabelOccurs(out[..|out| - 1], k, l);
    }
  }

  lemma {:induction false} LabelOccursTwice(out: seq<Entry>, j: nat, k: nat, l: Label)
    requires j < k < |out| && l in out[j].labels && l in out[k].labels
    ensures LabelsOf(out)[l] >= 2
    decreases |out|
  {
    var front := out[..|out| - 1];
    assert front[j] == out[j];
    if k == |out| - 1 {
      LabelOccurs(front, j, l);
      assert l in multiset(out[k].labels);
    } else {
      assert front[k] == out[k];
      LabelOccursTwice(front, j, k, l);
    }
  }

  /** With unique labels the dictionary agrees with every entry. */
  lemma {:induction false} DictionaryAgrees(out: seq<Entry>, n: nat, k: nat)
    requires k < n <= |out| && Once(LabelsOf(out))
    ensures Names(Dictionary(out, n), out[k].labels, k)
    decreases n
  {
    forall l | l in out[k].labels
      ensures l in Dictionary(out, n) && Dictionary(out, n)[l] == k
    {
      NameAllLookup(Dictionary(out, n - 1), out[n - 1].labels, n - 1, l);
      if k < n - 1 {
        DictionaryAgrees(out, n - 1, k);
        if l in out[n - 1].labels {
          LabelOccursTwice(out, k, n - 1, l);
          assert false;
        }
      }
    }
  }

  // ------------------------------------------------------------ assembling

  /** The label dictionary: one pass over the listing. */
  method BuildLabels(out: seq<Entry>) returns (labels: Table)
    ensures labels == Dictionary(out, |out|)
  {
    labels := map[];
    for i := 0 to |out|
      invariant labels == Dictionary(out, i)
    {
      var ls := out[i].labels;
      for k := 0 to |ls|
        invariant NameAll(labels, ls[k..], i) == Dictionary(out, i + 1)
      {
        labels := labels[ls[k] := i];
        assert ls[k..][1..] == ls[k + 1..];
      }
    }
  }

  method ResolveAll(out: seq<Entry>, labels: Table) returns (words: Program)
    ensures |words| == |out| && forall k :: 0 <= k < |out| ==> words[k] == Resolve(out[k].code, labels)
  {
    words := [];
    for i := 0 to |out|
      invariant |words| == i && forall k :: 0 <= k < i ==> words[k] == Resolve(out[k].code, labels)
    {
      words := words + [Resolve(out[i].code, labels)];
    }
  }
}
