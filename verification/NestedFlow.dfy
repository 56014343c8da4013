/** The nested-flow stimulus generator: loops, forward branches and calls nested
    inside loops, generated against a worst-case cycle budget and then written out
    with labels.

    The generator promises that its programs end by construction, within the
    budget. That promise is the postcondition of `GenerateProgram`. */
module NestedFlow {
  import opened Bits
  import opened Isa
  import opened Machine
  import opened Runs
  import opened Structured
  import opened Wrappers
  import opened LeafWords
  import opened Emission

  const CYCLE_BUDGET := 15000
  const SUB_BUDGET := 90
  const MAX_DEPTH := 3

  const DEFAULT_DELAYS: Caps := map[0 := 63, 1 := 15]
  const DEFAULT_WAITS: Caps := map[0 := 31, 1 := 15]

  /** The default caps fit the mantissa fields, so the generators' promises hold of them. */
  lemma DefaultsFit()
    ensures DelayCaps(DEFAULT_DELAYS) && WaitCaps(DEFAULT_WAITS)
  {
    assert 0 in DEFAULT_DELAYS.Keys && 0 in DEFAULT_WAITS.Keys;
  }

  // ------------------------------------------------------------ generated trees

  /** A generated item; branch targets are drawn later, when it is written out. */
  datatype Node =
    | NLeaf(word: Word)
    | NBranch(flagSetter: Word, cond: nat)
    | NCall
    | NLoop(reg: nat, count: nat, body: seq<Node>)

  /** Words an item is written with. */
  function NodeSize(n: Node): nat
    decreases n, 0
  {
    match n
    case NLeaf(_) => 1
    case NBranch(_, _) => 2
    case NCall => 1
    case NLoop(_, _, body) => SizeTo(body, |body|) + 2
  }

  function SizeTo(ns: seq<Node>, i: nat): nat
    requires i <= |ns|
    decreases ns, i
  {
    if i == 0 then 0 else SizeTo(ns, i - 1) + NodeSize(ns[i - 1])
  }

  function Size(ns: seq<Node>): nat { SizeTo(ns, |ns|) }

  /** The static worst case the generator charges for an item. */
  function NodeCost(n: Node): nat
    decreases n, 0
  {
    match n
    case NLeaf(w) => WordCost(w)
    case NBranch(fs, _) => WordCost(fs) + 3
    case NCall => SUB_BUDGET
    case NLoop(_, count, body) => 3 + count * (CostTo(body, |body|) + 3)
  }

  function CostTo(ns: seq<Node>, i: nat): nat
    requires i <= |ns|
    decreases ns, i
  {
    if i == 0 then 0 else CostTo(ns, i - 1) + NodeCost(ns[i - 1])
  }

  function Cost(ns: seq<Node>): nat { CostTo(ns, |ns|) }

  lemma {:induction false} PrefixSums(ns: seq<Node>, n: Node, i: nat)
    requires i <= |ns|
    ensures CostTo(ns + [n], i) == CostTo(ns, i) && SizeTo(ns + [n], i) == SizeTo(ns, i)
    decreases i
  {
    if i > 0 {
      PrefixSums(ns, n, i - 1);
    }
  }

  lemma AppendNode(ns: seq<Node>, n: Node)
    ensures Cost(ns + [n]) == Cost(ns) + NodeCost(n) && Size(ns + [n]) == Size(ns) + NodeSize(n)
  {
    PrefixSums(ns, n, |ns|);
  }

  // ------------------------------------------------------------ what is generated

  /** A random permutation of the four registers. */
  predicate IsPermutation(perm: seq<nat>) {
    && |perm| == 4
    && (forall k :: 0 <= k < 4 ==> perm[k] < 4)
    && (forall j, k :: 0 <= j < k < 4 ==> perm[j] != perm[k])
  }

  /** The registers that hold counters at nesting depth `depth`. */
  function Counters(perm: seq<nat>, depth: nat): set<nat>
    requires depth <= |perm|
  {
    set k | 0 <= k < depth :: perm[k]
  }

  /** A leaf of a defined opcode that writes no counter. */
  predicate GoodLeaf(w: Word, forbid: set<nat>) {
    DefinedLeaf(w) && SafeLeaf(w, forbid)
  }

  predicate GoodNode(n: Node, perm: seq<nat>, depth: nat, calls: bool)
    requires IsPermutation(perm) && depth <= MAX_DEPTH
  {
    match n
    case NLeaf(w) => GoodLeaf(w, Counters(perm, depth))
    case NBranch(fs, cond) => GoodLeaf(fs, Counters(perm, depth)) && cond < COND_CALL
    case NCall => calls
    case NLoop(reg, count, body) =>
      && depth < MAX_DEPTH && reg == perm[depth] && 1 <= count <= 8 && 1 <= |body| <= 6
      && GoodNodes(body, perm, depth + 1, calls)
  }

  predicate GoodNodes(ns: seq<Node>, perm: seq<nat>, depth: nat, calls: bool)
    requires IsPermutation(perm) && depth <= MAX_DEPTH
  {
    forall i :: 0 <= i < |ns| ==> GoodNode(ns[i], perm, depth, calls)
  }

  // ------------------------------------------------------------ leaf words

  /** The largest mantissa at exponent `e` within `cap` and `extra` cycles. */
  function MantissaWithin(cap: nat, e: nat, extra: nat): (m: nat)
    requires e < 4
    ensures m <= cap && m * Unit(e) <= extra
  {
    var q := extra / Unit(e);
    assert q * Unit(e) <= extra;
    if cap < q then MulMono(cap, q, Unit(e)); cap else q
  }

  /** Cut the mantissa caps so that one word adds at most `extra` cycles; if no cap
      of at least `lo` is left, allow just `lo` at exponent 0. */
  function Clamp(caps: Caps, extra: nat, lo: int, hi: int): (out: Caps)
    requires CapsFit(caps, 0, hi) && 0 <= lo <= 1 <= hi
    ensures CapsFit(out, lo, hi)
    ensures forall e :: e in out ==> out[e] * Unit(e) <= extra || (e == 0 && out[e] == lo)
  {
    var out := map e | e in caps && MantissaWithin(caps[e], e, extra) >= lo :: MantissaWithin(caps[e], e, extra);
    if out.Keys == {} then
      assert 0 in map[0 := lo].Keys;
      map[0 := lo]
    else
      out
  }

  function Min(a: int, b: int): int { if a < b then a else b }

  function Max(a: int, b: int): int { if a > b then a else b }

  // ------------------------------------------------------------ drawn targets

  /** A sequence as written out: the generated items, with every branch target
      drawn among later siblings, `continue` and (inside a loop) `break`. */
  predicate Realizes(ns: seq<Node>, items: seq<Item>, inLoop: bool)
    decreases ns
  {
    |ns| == |items| && forall i :: 0 <= i < |ns| ==> RealizesAt(ns[i], items[i], i, |ns|, inLoop)
  }

  predicate RealizesAt(n: Node, it: Item, i: nat, total: nat, inLoop: bool)
    decreases n
  {
    match n
    case NLeaf(w) => it == Leaf(w)
    case NBranch(fs, cond) => it.Branch? && it.pre == [fs] && it.cond == cond && GoodTarget(it.target, i, total, inLoop)
    case NCall => it == Item.Call
    case NLoop(reg, count, body) => it.Loop? && it.reg == reg && it.count == count && Realizes(body, it.body, true)
  }

  lemma {:induction false} RealizesSize(ns: seq<Node>, items: seq<Item>, inLoop: bool, i: nat)
    requires Realizes(ns, items, inLoop) && i <= |ns|
    ensures Start(items, i) == SizeTo(ns, i)
    decreases ns, i
  {
    if i > 0 {
      RealizesSize(ns, items, inLoop, i - 1);
      assert RealizesAt(ns[i - 1], items[i - 1], i - 1, |ns|, inLoop);
      if ns[i - 1].NLoop? {
        RealizesSize(ns[i - 1].body, items[i - 1].body, true, |ns[i - 1].body|);
      }
    }
  }

  lemma {:induction false} RealizesWellFormed(ns: seq<Node>, items: seq<Item>, perm: seq<nat>, depth: nat, calls: bool)
    requires IsPermutation(perm) && depth <= MAX_DEPTH
    requires Realizes(ns, items, depth > 0) && GoodNodes(ns, perm, depth, calls)
    ensures WellFormed(items, Counters(perm, depth), depth > 0, calls, Counters(perm, MAX_DEPTH)) && Emittable(items)
    decreases ns
  {
    var live, kept, inLoop := Counters(perm, depth), Counters(perm, MAX_DEPTH), depth > 0;
    forall i | 0 <= i < |items|
      ensures WellFormedAt(items, i, live, inLoop, calls, kept) && EmittableItem(items[i])
    {
      assert RealizesAt(ns[i], items[i], i, |ns|, inLoop) && GoodNode(ns[i], perm, depth, calls);
      if ns[i].NLoop? {
        RealizesWellFormed(ns[i].body, items[i].body, perm, depth + 1, calls);
        assert Counters(perm, depth + 1) == live + {perm[depth]};
      }
    }
    assert WellFormed(items, live, inLoop, calls, kept);
  }

  /** A call-free tree does not need the subroutine. */
  predicate HasCall(ns: seq<Node>) {
    exists i :: 0 <= i < |ns| && CallsIn(ns[i])
  }

  predicate CallsIn(n: Node) {
    n.NCall? || (n.NLoop? && HasCall(n.body))
  }

  lemma {:induction false} CallFree(ns: seq<Node>, perm: seq<nat>, depth: nat)
    requires IsPermutation(perm) && depth <= MAX_DEPTH && GoodNodes(ns, perm, depth, true) && !HasCall(ns)
    ensures GoodNodes(ns, perm, depth, false)
    decreases ns
  {
    forall i | 0 <= i < |ns|
      ensures GoodNode(ns[i], perm, depth, false)
    {
      assert !CallsIn(ns[i]) && GoodNode(ns[i], perm, depth, true);
      if ns[i].NLoop? {
        CallFree(ns[i].body, perm, depth + 1);
      }
    }
  }

  lemma {:induction false} EmitToFront(items: seq<Item>, it: Item, i: nat, starts: seq<Label>, d: Draft, exits: Exits)
    requires i <= |items| < |starts| && Emittable(items) && EmittableItem(it)
    ensures Emittable(items + [it])
    ensures EmitTo(items + [it], i, starts, d, exits) == EmitTo(items, i, starts, d, exits)
    decreases i
  {
    if i > 0 {
      EmitToFront(items, it, i - 1, starts, d, exits);
      assert (items + [it])[i - 1] == items[i - 1];
    }
  }

  // ------------------------------------------------------------ the subroutine

  /** The words of a sequence of leaves and branches to its own end. */
  function NodeCode(n: Node): seq<Code> {
    match n
    case NLeaf(w) => [Fixed(w)]
    case NBranch(fs, cond) => [Fixed(fs), BranchTo(cond, SubReturn)]
    case _ => []
  }

  function FlatCode(ns: seq<Node>): seq<Code> {
    if ns == [] then [] else NodeCode(ns[0]) + FlatCode(ns[1..])
  }

  function FlatItems(ns: seq<Node>): (items: seq<Item>)
    ensures |items| == |ns|
  {
    seq(|ns|, i requires 0 <= i < |ns| =>
      match ns[i]
      case NLeaf(w) => Leaf(w)
      case NBranch(fs, cond) => Item.Branch([fs], cond, Continue)
      case _ => Item.Call)
  }

  predicate IsFlat(ns: seq<Node>) {
    forall i :: 0 <= i < |ns| ==> ns[i].NLeaf? || ns[i].NBranch?
  }

  /** The first word carries the subroutine's label. */
  function Labelled(codes: seq<Code>): (entries: seq<Entry>)
    ensures |entries| == |codes|
  {
    seq(|codes|, k requires 0 <= k < |codes| => Entry(if k == 0 then [SubStart] else [], codes[k]))
  }

  /** The subroutine: labelled code of the body, then a labelled RET. */
  function SubEntries(ns: seq<Node>): seq<Entry> {
    Labelled(FlatCode(ns)) + [Entry([SubReturn], Fixed(Encode(Ret)))]
  }

  lemma LabelledInsert(codes: seq<Code>, pos: nat, c1: Code, c2: Code)
    requires 1 <= pos <= |codes|
    ensures Labelled(codes[..pos] + [c1, c2] + codes[pos..])
         == Labelled(codes)[..pos] + [Entry([], c1), Entry([], c2)] + Labelled(codes)[pos..]
  {
  }

  lemma FlatRealizes(ns: seq<Node>)
    requires IsFlat(ns) && forall i :: 0 <= i < |ns| ==> ns[i].NBranch? ==> ns[i].cond < COND_CALL
    ensures Realizes(ns, FlatItems(ns), false) && Realizes(ns, FlatItems(ns), true)
  {
  }

  lemma {:induction false} FlatPosition(ns: seq<Node>, i: nat)
    requires IsFlat(ns) && i < |ns|
    ensures SizeTo(ns, i) + NodeSize(ns[i]) <= |FlatCode(ns)|
    ensures FlatCode(ns)[SizeTo(ns, i)] == Fixed(if ns[i].NLeaf? then ns[i].word else ns[i].flagSetter)
    ensures ns[i].NBranch? ==> FlatCode(ns)[SizeTo(ns, i) + 1] == BranchTo(ns[i].cond, SubReturn)
    decreases |ns|
  {
    if i > 0 {
      FlatPosition(ns[1..], i - 1);
      ShiftSums(ns, i);
    }
  }

  lemma {:induction false} ShiftSums(ns: seq<Node>, i: nat)
    requires 1 <= i <= |ns|
    ensures SizeTo(ns, i) == NodeSize(ns[0]) + SizeTo(ns[1..], i - 1)
    decreases i
  {
    if i > 1 {
      ShiftSums(ns, i - 1);
      assert ns[1..][i - 2] == ns[i - 1];
    }
  }

  lemma NoSize(ns: seq<Node>)
    ensures SizeTo(ns, 0) == 0
  {
  }

  lemma CodeSize(n: Node)
    requires n.NLeaf? || n.NBranch?
    ensures |NodeCode(n)| == NodeSize(n)
  {
  }

  lemma {:induction false} FlatLength(ns: seq<Node>)
    requires IsFlat(ns)
    ensures |FlatCode(ns)| == Size(ns)
    decreases |ns|
  {
    hide NodeCode, NodeSize, SizeTo;
    if ns == [] {
      NoSize(ns);
    } else {
      FlatLength(ns[1..]);
      ShiftSums(ns, |ns|);
      CodeSize(ns[0]);
    }
  }

  lemma {:induction false} FlatAppend(a: seq<Node>, b: seq<Node>)
    ensures FlatCode(a + b) == FlatCode(a) + FlatCode(b)
    decreases |a|
  {
    hide NodeCode;
    if a == [] {
      assert a + b == b;
    } else {
      FlatAppend(a[1..], b);
      assert (a + b)[0] == a[0] && (a + b)[1..] == a[1..] + b;
    }
  }

  // ------------------------------------------------------------ the generator

  class Gen {
    const perm: seq<nat>
    const delays: Caps
    const waits: Caps
    var out: seq<Entry>
    var pending: seq<Label>
    var uid: nat

    predicate Valid() {
      IsPermutation(perm) && DelayCaps(delays) && WaitCaps(waits)
    }

    function State(): Draft
      reads this
    {
      Draft(out, pending, uid)
    }

    constructor (perm: seq<nat>, delays: Caps, waits: Caps)
      requires IsPermutation(perm) && DelayCaps(delays) && WaitCaps(waits)
      ensures Valid() && this.perm == perm && State() == Draft([], [], 0)
    {
      this.perm, this.delays, this.waits := perm, delays, waits;
      out, pending, uid := [], [], 0;
    }

    /** Rejection sampling: at most 64 draws, then NOP. */
    method LeafWordFor(forbid: set<nat>, extra: nat) returns (w: Word)
      requires Valid()
      ensures GoodLeaf(w, forbid)
      ensures WordCost(w) <= 3 + extra
    {
      var d := Clamp(delays, extra, 0, 511);
      var wt := Clamp(waits, Max(extra - 1, 0), 1, 31);
      var tries := 0;
      while tries < 64 {
        w := GenLeafWord(d, wt, None);
        if Keeps(w, forbid) && WordCost(w) - 3 <= extra {
          return;
        }
        tries := tries + 1;
      }
      EncodedLeaf(Nop);
      w := Encode(Nop);
    }

    /** TESTBIT, CMP or a short timed WAIT: sets the flag, writes no register. */
    method FlagSetter(extra: int) returns (w: Word)
      requires Valid()
      ensures forall forbid :: GoodLeaf(w, forbid)
      ensures WordCost(w) <= Max(5, 3 + extra)
    {
      var i: Instr;
      var kind := RandInt(0, 3);
      var r := RandInt(0, 3);
      var s := RandInt(0, 3);
      if kind <= 1 {
        var bit := RandInt(0, 7);
        i := TestBit(r, bit);
      } else if kind == 2 {
        i := Cmp(r, s);
      } else {
        var cap := Max(1, Min(31, extra - 1));
        var pin := ChoosePin();
        var level := RandInt(0, 1);
        var m := RandInt(1, cap);
        i := Wait(pin, level, m, 0);
      }
      EncodedLeaf(i);
      w := Encode(i);
    }

    /** The pass count of a loop that may use `lb` cycles: lowered until a pass has
        at least 12 cycles, or only one pass is left. */
    method PassCount(lb: int) returns (c: nat)
      requires lb >= 9
      ensures 1 <= c <= 8 && lb / c - 6 >= 3
    {
      c := RandInt(1, 8);
      while c > 1 && lb / c - 3 < 9
        invariant 1 <= c <= 8
      {
        c := c - 1;
      }
    }

    /** Part of `left` that a loop may use: 30 to 70 % at top level, 60 to 95 % inside. */
    method LoopBudget(depth: nat, left: int) returns (lb: int)
      requires left >= 30
      ensures 9 <= lb <= left
    {
      if depth == 0 {
        lb := RandInt(left * 3 / 10, left * 7 / 10);
      } else {
        lb := RandInt(left * 6 / 10, left * 95 / 100);
      }
    }

    /** Items for one sequence, with their worst-case cost for one pass and their
        size: never over budget, and as many as asked for unless cycles or words ran out. */
    method Seq(depth: nat, budget: int, wordsLeft: int, nMax: nat, hasSub: bool)
      returns (items: seq<Node>, cost: int, words: int)
      requires Valid() && depth <= MAX_DEPTH
      ensures GoodNodes(items, perm, depth, hasSub)
      ensures cost == Cost(items) && words == Size(items)
      ensures cost <= Max(budget, 0) && words <= Max(wordsLeft, 0)
      ensures |items| <= Max(nMax, 0)
      ensures |items| >= nMax || budget - cost < 3 || wordsLeft - words < 1
      ensures budget >= 3 && wordsLeft >= 1 && nMax >= 1 ==> items != []
      decreases MAX_DEPTH - depth
    {
      items, cost, words := [], 0, 0;
      var loopsHere := 0;
      while |items| < nMax && budget - cost >= 3 && wordsLeft - words >= 1
        invariant GoodNodes(items, perm, depth, hasSub)
        invariant cost == Cost(items) && words == Size(items)
        invariant cost <= Max(budget, 0) && words <= Max(wordsLeft, 0)
        invariant items == [] ==> cost == 0 && words == 0
        invariant |items| <= Max(nMax, 0)
        decreases nMax - |items|
      {
        var left, wl := budget - cost, wordsLeft - words;
        var x: real :| 0.0 <= x < 1.0;
        var pLoop, pBranch, pCall := 0.18, 0.08, 0.04;
        if depth > 0 {
          pLoop := if depth < MAX_DEPTH && loopsHere == 0 then 0.45 else 0.0;
          pBranch, pCall := 0.22, 0.12;
        }
        var item: Node;
        if depth < MAX_DEPTH && x < pLoop && left >= 30 && wl >= 4 {
          item := LoopItem(depth, left, wl, hasSub);
          loopsHere := loopsHere + 1;
        } else if x < pLoop + pBranch && left >= 10 && wl >= 2 {
          var fs := FlagSetter(Min(left - 6, 40));
          var cond := RandInt(COND_JMP, COND_BNE);
          item := NBranch(fs, cond);
        } else if hasSub && x < pLoop + pBranch + pCall && left >= SUB_BUDGET {
          item := NCall;
        } else {
          var extra := Max(Min(left - 3, if depth == 0 then 480 else (left - 3) / 3), 0);
          var w := LeafWordFor(Counters(perm, depth), extra);
          item := NLeaf(w);
        }
        AppendNode(items, item);
        items, cost, words := items + [item], cost + NodeCost(item), words + NodeSize(item);
      }
    }

    /** A loop item within `left` cycles and `wl` words. The body always gets a
        budget of at least 3 cycles and one word, so it is never empty. */
    method LoopItem(depth: nat, left: int, wl: int, hasSub: bool) returns (item: Node)
      requires Valid() && depth < MAX_DEPTH && left >= 30 && wl >= 4
      ensures item.NLoop? && GoodNode(item, perm, depth, hasSub)
      ensures NodeCost(item) <= left && NodeSize(item) <= wl
      decreases MAX_DEPTH - depth, 0
    {
      var lb := LoopBudget(depth, left);
      var c := PassCount(lb);
      var perPass := lb / c - 6;
      var n := RandInt(2, 6);
      var body, bcost, bwords := Seq(depth + 1, perPass, wl - 2, n, hasSub);
      assert body != [];
      item := NLoop(perm[depth], c, body);
      LoopWithinBudget(c, bcost, lb);
    }

    method NewLabel() returns (l: Label)
      modifies this`uid
      ensures uid == old(uid) + 1 && l == Generated(uid)
    {
      uid := uid + 1;
      l := Generated(uid);
    }

    method Write(code: Code)
      modifies this`out, this`pending
      ensures State() == Append(old(State()), code)
    {
      out := out + [Entry(pending, code)];
      pending := [];
    }

    /** A later sibling but one, the end of the sequence, or the way out of the loop. */
    method ChooseTarget(i: nat, n: nat, inLoop: bool) returns (target: Target)
      requires i < n
      ensures GoodTarget(target, i, n, inLoop)
      ensures target.Sibling? ==> i + 2 <= target.index
    {
      var kind := RandInt(0, 2);
      if kind == 0 && i + 2 < n {
        var j := RandInt(i + 2, n - 1);
        target := Sibling(j);
      } else if kind == 1 && inLoop {
        target := Break;
      } else {
        target := Continue;
      }
    }

    /** Writes a sequence out; `items` records the targets drawn on the way. */
    method Emit(nodes: seq<Node>, exits: Exits, inLoop: bool, ghost depth: nat) returns (ghost items: seq<Item>)
      requires Valid() && depth <= MAX_DEPTH && GoodNodes(nodes, perm, depth, true) && inLoop == (depth > 0)
      modifies this`out, this`pending, this`uid
      ensures Realizes(nodes, items, depth > 0) && Emittable(items)
      ensures State() == EmitSeq(items, old(State()), exits)
      decreases nodes
    {
      hide GoodLeaf, Counters, EmitItem;
      ghost var d := State();
      var n, starts := |nodes|, [];
      while |starts| < n
        invariant |starts| <= n && starts == Starts(d, |starts|)
        invariant State() == Skip(d, |starts|)
      {
        var l := NewLabel();
        starts := starts + [l];
      }
      items := [];
      var i := 0;
      while i < n
        invariant 0 <= i <= n == |starts| && starts == Starts(d, n) && |items| == i
        invariant Emittable(items)
        invariant forall k :: 0 <= k < i ==> RealizesAt(nodes[k], items[k], k, n, depth > 0)
        invariant State() == EmitTo(items, i, starts, Skip(d, n), exits)
      {
        ghost var before, done := State(), items;
        ghost var it := EmitNode(nodes[i], i, n, starts, exits, inLoop, depth);
        items := done + [it];
        EmitToFront(done, it, i, starts, Skip(d, n), exits);
        i := i + 1;
      }
    }

    method EmitNode(node: Node, i: nat, n: nat, starts: seq<Label>, exits: Exits, inLoop: bool, ghost depth: nat)
      returns (ghost it: Item)
      requires Valid() && depth <= MAX_DEPTH && GoodNode(node, perm, depth, true) && i < n == |starts|
      requires inLoop == (depth > 0)
      modifies this`out, this`pending, this`uid
      ensures RealizesAt(node, it, i, n, depth > 0) && EmittableItem(it)
      ensures State() == EmitItem(it, i, starts, old(State()), exits)
      decreases node
    {
      hide GoodLeaf, Encode, EmitSeq, Counters;
      pending := pending + [starts[i]];
      match node
      case NLeaf(w) =>
        Write(Fixed(w));
        it := Leaf(w);
      case NCall =>
        Write(CallSub);
        it := Item.Call;
      case NBranch(fs, cond) =>
        Write(Fixed(fs));
        var target := ChooseTarget(i, n, inLoop);
        Write(BranchTo(cond, LabelOf(target, starts, exits)));
        it := Item.Branch([fs], cond, target);
      case NLoop(reg, count, body) =>
        ghost var d1 := State();
        Write(Fixed(Encode(Ldi(reg, count))));
        var bodyLabel := NewLabel();
        var loopLabel := NewLabel();
        var breakLabel := NewLabel();
        pending := pending + [bodyLabel];
        ghost var items := Emit(body, Exits(loopLabel, breakLabel), true, depth + 1);
        ghost var d2 := State();
        pending := pending + [loopLabel];
        Write(LoopTo(bodyLabel, reg));
        pending := pending + [breakLabel];
        it := Item.Loop(reg, count, items);
        assert State() == LoopTail(d1, it, d2);
    }

    /** Two to six leaf words for the subroutine; every word still to come keeps
        3 cycles of the budget. */
    method SubBody(forbid: set<nat>) returns (body: seq<Word>, cost: int)
      requires Valid()
      ensures 2 <= |body| <= 6
      ensures forall k :: 0 <= k < |body| ==> GoodLeaf(body[k], forbid)
      ensures cost == 6 + Cost(LeafNodes(body)) <= SUB_BUDGET
    {
      body, cost := [], 6;
      var n := RandInt(2, 6);
      while |body| < n
        invariant |body| <= n
        invariant forall k :: 0 <= k < |body| ==> GoodLeaf(body[k], forbid)
        invariant cost == 6 + Cost(LeafNodes(body)) && cost + 3 * (n - |body|) <= SUB_BUDGET
      {
        var left := SUB_BUDGET - cost - 3 * (n - |body|);
        var w := LeafWordFor(forbid, Max(0, Min(left - 3, 24)));
        LeafNodesAppend(body, w);
        body := body + [w];
        cost := cost + WordCost(w);
      }
    }

    /** The counter-safe subroutine: leaf words and possibly one branch to its own
        RET, within `SUB_BUDGET` cycles including CALL and RET. */
    method Sub() returns (entries: seq<Entry>, ghost nodes: seq<Node>)
      requires Valid()
      ensures IsFlat(nodes) && GoodNodes(nodes, perm, MAX_DEPTH, false) && OneBranch(nodes)
      ensures nodes != [] && entries == SubEntries(nodes) && 3 <= |entries| <= 9
      ensures Cost(nodes) + 6 <= SUB_BUDGET
    {
      hide GoodLeaf, Counters, Encode, FlatCode, CostTo;
      var body, cost := SubBody(Counters(perm, MAX_DEPTH));
      nodes := LeafNodes(body);
      FlatLeaves(body);
      entries := seq(|body|, k requires 0 <= k < |body| => Entry(if k == 0 then [SubStart] else [], Fixed(body[k])));
      assert entries == Labelled(FlatCode(nodes));
      var insert := RandInt(0, 1);
      if cost + 8 <= SUB_BUDGET && insert == 1 {
        var fs := FlagSetter(1);
        var pos := RandInt(1, |entries|);
        var cond := RandInt(COND_BEQ, COND_BNE);
        WithBranch(body, pos, fs, cond);
        LabelledInsert(FlatCode(nodes), pos, Fixed(fs), BranchTo(cond, SubReturn));
        entries := entries[..pos] + [Entry([], Fixed(fs)), Entry([], BranchTo(cond, SubReturn))] + entries[pos..];
        nodes := LeafNodes(body[..pos]) + [NBranch(fs, cond)] + LeafNodes(body[pos..]);
        BranchAlone(body, pos, fs, cond);
        cost := cost + 3 + WordCost(fs);
      }
      entries := entries + [Entry([SubReturn], Fixed(Encode(Ret)))];
    }
  }

  predicate OneBranch(ns: seq<Node>) {
    forall i, j :: 0 <= i < j < |ns| ==> !(ns[i].NBranch? && ns[j].NBranch?)
  }

  lemma BranchAlone(ws: seq<Word>, pos: nat, fs: Word, cond: nat)
    requires pos <= |ws|
    ensures OneBranch(LeafNodes(ws[..pos]) + [NBranch(fs, cond)] + LeafNodes(ws[pos..]))
  {
  }

  /** Inserting a branch among leaf words: the cost and the code. */
  lemma WithBranch(ws: seq<Word>, pos: nat, fs: Word, cond: nat)
    requires 1 <= pos <= |ws|
    ensures var ns := LeafNodes(ws[..pos]) + [NBranch(fs, cond)] + LeafNodes(ws[pos..]);
      && Cost(ns) == Cost(LeafNodes(ws)) + WordCost(fs) + 3
      && |FlatCode(LeafNodes(ws))| == |ws|
      && FlatCode(ns) == FlatCode(LeafNodes(ws))[..pos] + [Fixed(fs), BranchTo(cond, SubReturn)]
         + FlatCode(LeafNodes(ws))[pos..]
  {
    var a, b, m := LeafNodes(ws[..pos]), LeafNodes(ws[pos..]), [NBranch(fs, cond)];
    assert LeafNodes(ws) == a + b;
    CostConcat(a, b);
    CostConcat(a + m, b);
    AppendNode(a, NBranch(fs, cond));
    FlatAppend(a, b);
    FlatAppend(a + m, b);
    FlatAppend(a, m);
    FlatLeaves(ws[..pos]);
    FlatLeaves(ws);
    assert FlatCode(m) == [Fixed(fs), BranchTo(cond, SubReturn)] + FlatCode([]);
  }

  lemma {:induction false} CostConcat(a: seq<Node>, b: seq<Node>)
    ensures Cost(a + b) == Cost(a) + Cost(b)
    decreases |b|
  {
    if b == [] {
      assert a + b == a;
    } else {
      var front, last := b[..|b| - 1], b[|b| - 1];
      CostConcat(a, front);
      assert front + [last] == b && a + front + [last] == a + b;
      AppendNode(front, last);
      AppendNode(a + front, last);
    }
  }

  lemma {:induction false} FlatLeaves(ws: seq<Word>)
    ensures |FlatCode(LeafNodes(ws))| == |ws|
    ensures forall k :: 0 <= k < |ws| ==> FlatCode(LeafNodes(ws))[k] == Fixed(ws[k])
    decreases |ws|
  {
    if ws != [] {
      FlatLeaves(ws[1..]);
      assert LeafNodes(ws)[1..] == LeafNodes(ws[1..]);
    }
  }

  function LeafNodes(ws: seq<Word>): seq<Node> {
    seq(|ws|, k requires 0 <= k < |ws| => NLeaf(ws[k]))
  }

  lemma LeafNodesAppend(ws: seq<Word>, w: Word)
    ensures LeafNodes(ws + [w]) == LeafNodes(ws) + [NLeaf(w)]
    ensures Cost(LeafNodes(ws + [w])) == Cost(LeafNodes(ws)) + WordCost(w)
  {
    assert LeafNodes(ws + [w]) == LeafNodes(ws) + [NLeaf(w)];
    AppendNode(LeafNodes(ws), NLeaf(w));
  }

  /** `c` passes, each within `lb / c - 6` cycles plus 3 for LOOP, and 3 for LDI. */
  lemma LoopWithinBudget(c: nat, bcost: int, lb: int)
    requires 1 <= c && 0 <= bcost <= lb / c - 6
    ensures 3 + c * (bcost + 3) <= lb
  {
    MulMono(bcost + 3, lb / c - 3, c);
    assert (lb / c) * c <= lb;
    assert (lb / c - 3) * c == (lb / c) * c - 3 * c;
  }

  // ------------------------------------------------------------ execution

  lemma SubPlaced(prog: Program, table: Table, ns: seq<Node>, base: nat)
    requires IsFlat(ns) && forall i :: 0 <= i < |ns| ==> ns[i].NBranch? ==> ns[i].cond < COND_CALL
    requires forall k :: 0 <= k < |SubEntries(ns)| ==> Fetch(prog, base + k) == Resolve(SubEntries(ns)[k].code, table)
    requires base + Size(ns) < 511 && Lookup(table, SubReturn) == base + Size(ns)
    ensures var items, end := FlatItems(ns), base + Size(ns);
      && SeqSize(items) == Size(ns)
      && Placed(prog, items, base, end, end, base)
      && Decode(Fetch(prog, end)) == Ret
  {
    var items, end := FlatItems(ns), base + Size(ns);
    FlatRealizes(ns);
    RealizesSize(ns, items, false, |ns|);
    SubReturns(prog, table, ns, base);
    hide Decode, Fetch, Realizes, PlacedAt, SubEntries, Resolve, FlatItems, IsFlat;
    forall i | 0 <= i < |items|
      ensures PlacedAt(prog, items, i, base, end, end, base)
    {
      SubItemPlaced(prog, table, ns, base, i);
    }
  }

  lemma SubReturns(prog: Program, table: Table, ns: seq<Node>, base: nat)
    requires IsFlat(ns)
    requires forall k :: 0 <= k < |SubEntries(ns)| ==> Fetch(prog, base + k) == Resolve(SubEntries(ns)[k].code, table)
    ensures Decode(Fetch(prog, base + Size(ns))) == Ret
  {
    FlatLength(ns);
    assert SubEntries(ns)[Size(ns)].code == Fixed(Encode(Ret));
    DecodeEncode(Ret);
    hide Decode, Encode;
  }

  lemma SubItemPlaced(prog: Program, table: Table, ns: seq<Node>, base: nat, i: nat)
    requires IsFlat(ns) && i < |ns| && (ns[i].NBranch? ==> ns[i].cond < COND_CALL)
    requires forall k :: 0 <= k < |SubEntries(ns)| ==> Fetch(prog, base + k) == Resolve(SubEntries(ns)[k].code, table)
    requires base + Size(ns) < 511 && Lookup(table, SubReturn) == base + Size(ns)
    requires Realizes(ns, FlatItems(ns), false) && SeqSize(FlatItems(ns)) == Size(ns)
    ensures PlacedAt(prog, FlatItems(ns), i, base, base + Size(ns), base + Size(ns), base)
  {
    hide Decode, Realizes, FlatCode, SizeTo, Start, Encode, FlatItems, IsFlat, Fetch;
    var k, end := SizeTo(ns, i), base + Size(ns);
    RealizesSize(ns, FlatItems(ns), false, i);
    FlatPosition(ns, i);
    FlatLength(ns);
    assert SubEntries(ns)[k].code == FlatCode(ns)[k];
    FlatItemAt(ns, i);
    if ns[i].NBranch? {
      assert SubEntries(ns)[k + 1].code == FlatCode(ns)[k + 1];
      DecodeEncode(Instr.Branch(ns[i].cond, end));
    }
  }

  lemma FlatItemAt(ns: seq<Node>, i: nat)
    requires IsFlat(ns) && i < |ns|
    ensures var it := FlatItems(ns)[i];
      if ns[i].NLeaf? then it == Leaf(ns[i].word)
      else ns[i].NBranch? && it == Item.Branch([ns[i].flagSetter], ns[i].cond, Continue)
  {
  }

  /** The cost of a word, or more than the whole budget if the word is reserved or
      can wait for ever: a run within the budget executed no such word. */
  function Charge(w: Word): nat {
    if Decode(w).Reserved? || !Timed(w) then CYCLE_BUDGET + 1 else WordCost(w)
  }

  function Charged(prog: Program): nat -> nat {
    a => Charge(Fetch(prog, a))
  }

  /** The weight of one item of the flat code. */
  function WeightOf(prog: Program, items: seq<Item>, k: nat, base: nat, cw: nat): nat
    requires k < |items|
  {
    ItemWeight(items[k], base + Start(items, k), Charged(prog), cw)
  }

  lemma {:induction false} SumWithinCost(prog: Program, ns: seq<Node>, items: seq<Item>, base: nat, cw: nat, i: nat)
    requires i <= |ns| == |items|
    requires forall k :: 0 <= k < |ns| ==> WeightOf(prog, items, k, base, cw) <= NodeCost(ns[k])
    ensures WeightFrom(items, i, base, Charged(prog), cw) + CostTo(ns, i) <= Cost(ns)
    decreases |ns| - i
  {
    hide ItemWeight, NodeCost, Start;
    if i < |ns| {
      SumWithinCost(prog, ns, items, base, cw, i + 1);
      assert WeightOf(prog, items, i, base, cw) <= NodeCost(ns[i]);
    }
  }

  /** The weight of the flat code is at most what the generator charged for the tree. */
  lemma {:induction false} WeightWithinCost(prog: Program, ns: seq<Node>, items: seq<Item>, perm: seq<nat>,
                                            depth: nat, calls: bool,
                                            base: nat, brk: nat, sub: nat, cw: nat)
    requires IsPermutation(perm) && depth <= MAX_DEPTH && cw + 3 <= SUB_BUDGET
    requires Realizes(ns, items, depth > 0) && GoodNodes(ns, perm, depth, calls)
    requires Placed(prog, items, base, base + SeqSize(items), brk, sub)
    ensures WeightFrom(items, 0, base, Charged(prog), cw) <= Cost(ns)
    decreases ns
  {
    hide *;
    forall i | 0 <= i < |ns|
      ensures i < |items| && WeightOf(prog, items, i, base, cw) <= NodeCost(ns[i])
    {
      NodeParts(prog, ns, items, perm, depth, calls, base, brk, sub, i);
      NodeWithinCost(prog, ns[i], items, i, perm, depth, calls, base, brk, sub, cw);
    }
    RealizesLength(ns, items, depth > 0);
    SumWithinCost(prog, ns, items, base, cw, 0);
    CostFromStart(ns);
  }

  lemma RealizesLength(ns: seq<Node>, items: seq<Item>, inLoop: bool)
    requires Realizes(ns, items, inLoop)
    ensures |items| == |ns|
  {
  }

  lemma CostFromStart(ns: seq<Node>)
    ensures CostTo(ns, 0) == 0
  {
  }

  lemma NodeParts(prog: Program, ns: seq<Node>, items: seq<Item>, perm: seq<nat>, depth: nat, calls: bool,
                  base: nat, brk: nat, sub: nat, i: nat)
    requires IsPermutation(perm) && depth <= MAX_DEPTH && i < |ns|
    requires Realizes(ns, items, depth > 0) && GoodNodes(ns, perm, depth, calls)
    requires Placed(prog, items, base, base + SeqSize(items), brk, sub)
    ensures i < |items| && RealizesAt(ns[i], items[i], i, |items|, depth > 0) && GoodNode(ns[i], perm, depth, calls)
    ensures PlacedAt(prog, items, i, base, base + SeqSize(items), brk, sub)
  {
    hide RealizesAt, GoodNode, PlacedAt, SeqSize;
  }

  lemma {:induction false} NodeWithinCost(prog: Program, n: Node, items: seq<Item>, i: nat, perm: seq<nat>,
                                          depth: nat, calls: bool,
                                          base: nat, brk: nat, sub: nat, cw: nat)
    requires IsPermutation(perm) && depth <= MAX_DEPTH && i < |items| && cw + 3 <= SUB_BUDGET
    requires RealizesAt(n, items[i], i, |items|, depth > 0) && GoodNode(n, perm, depth, calls)
    requires PlacedAt(prog, items, i, base, base + SeqSize(items), brk, sub)
    ensures WeightOf(prog, items, i, base, cw) <= NodeCost(n)
    decreases n
  {
    hide Realizes, GoodNodes, Placed, Decode, GoodLeaf, ItemWeight, NodeCost, Charged, WeightFrom, SeqSize, Cost,
         IsPermutation;
    var it, a := items[i], base + Start(items, i);
    if n.NLoop? {
      var lp := a + 1 + SeqSize(it.body);
      WeightWithinCost(prog, n.body, it.body, perm, depth + 1, calls, a + 1, lp + 1, sub, cw);
      LoopWithinCost(prog, n, it, a, cw);
    } else {
      ItemWithinCost(prog, n, items, i, perm, depth, calls, base, brk, sub, cw);
    }
  }

  lemma LoopWithinCost(prog: Program, n: Node, it: Item, a: nat, cw: nat)
    requires n.NLoop? && it.Loop? && it.count == n.count
    requires WeightFrom(it.body, 0, a + 1, Charged(prog), cw) <= Cost(n.body)
    requires Decode(Fetch(prog, a)).Ldi? && Decode(Fetch(prog, a + 1 + SeqSize(it.body))).Loop?
    ensures ItemWeight(it, a, Charged(prog), cw) <= NodeCost(n)
  {
    hide *;
    var w := WeightFrom(it.body, 0, a + 1, Charged(prog), cw);
    ThreeCharged(prog, a);
    ThreeCharged(prog, a + 1 + SeqSize(it.body));
    LoopWeighs(it, a, Charged(prog), cw);
    LoopCosts(n);
    MulMono(w + 3, Cost(n.body) + 3, it.count);
  }

  lemma ThreeCharged(prog: Program, a: nat)
    requires Decode(Fetch(prog, a)).Ldi? || Decode(Fetch(prog, a)).Loop?
    ensures Charged(prog)(a) == 3
  {
    hide Decode;
  }

  lemma LoopWeighs(it: Item, a: nat, wt: nat -> nat, cw: nat)
    requires it.Loop? && wt(a) == 3 && wt(a + 1 + SeqSize(it.body)) == 3
    ensures ItemWeight(it, a, wt, cw) == 3 + it.count * (WeightFrom(it.body, 0, a + 1, wt, cw) + 3)
  {
    hide WeightFrom;
  }

  lemma LoopCosts(n: Node)
    requires n.NLoop?
    ensures NodeCost(n) == 3 + n.count * (Cost(n.body) + 3)
  {
    hide CostTo;
  }

  lemma ItemWithinCost(prog: Program, n: Node, items: seq<Item>, i: nat, perm: seq<nat>, depth: nat, calls: bool,
                       base: nat, brk: nat, sub: nat, cw: nat)
    requires IsPermutation(perm) && depth <= MAX_DEPTH && i < |items| && cw + 3 <= SUB_BUDGET && !n.NLoop?
    requires RealizesAt(n, items[i], i, |items|, depth > 0) && GoodNode(n, perm, depth, calls)
    requires PlacedAt(prog, items, i, base, base + SeqSize(items), brk, sub)
    ensures ItemWeight(items[i], base + Start(items, i), Charged(prog), cw) <= NodeCost(n)
  {
    hide GoodNodes, Placed, Realizes, WeightFrom, Charged, Decode, GoodLeaf, WordCost, SpanWeight, Start;
    var a := base + Start(items, i);
    match n
    case NLeaf(w) => LeafCharged(prog, a, w, Counters(perm, depth));
    case NBranch(fs, _) =>
      assert Fetch(prog, a + 0) == items[i].pre[0] == fs;
      LeafCharged(prog, a, fs, Counters(perm, depth));
      BranchCharged(prog, a + 1);
      TwoWords(a, Charged(prog));
    case NCall => BranchCharged(prog, a);
  }

  lemma LeafCharged(prog: Program, a: nat, w: Word, forbid: set<nat>)
    requires GoodLeaf(w, forbid) && Fetch(prog, a) == w
    ensures Charged(prog)(a) == WordCost(w)
  {
    hide Decode;
  }

  lemma BranchCharged(prog: Program, a: nat)
    requires Decode(Fetch(prog, a)).Branch?
    ensures Charged(prog)(a) == 3
  {
    hide Decode;
  }

  lemma TwoWords(a: nat, wt: nat -> nat)
    ensures SpanWeight(a, 2, wt) == wt(a) + wt(a + 1)
  {
    assert SpanWeight(a + 1, 1, wt) == wt(a + 1) + SpanWeight(a + 2, 0, wt);
  }

  /** Started from reset at cycle `t0`, the program reaches HALT within `limit`
      cycles and no sticky flag is set on the way. */
  ghost predicate HaltsCleanly(prog: Program, io: Stimulus, t0: nat, limit: nat) {
    exists tr: seq<nat>, d: Config ::
      && Path(prog, io, Config(Reset(), t0), tr, d)
      && d.s.halted && d.t <= t0 + limit && !d.s.illegalOp && !d.s.callRetMisuse
  }

  lemma FlatWellFormed(ns: seq<Node>, perm: seq<nat>)
    requires IsFlat(ns) && IsPermutation(perm) && GoodNodes(ns, perm, MAX_DEPTH, false)
    ensures var kept := Counters(perm, MAX_DEPTH); WellFormed(FlatItems(ns), kept, false, false, kept)
  {
    var items, kept := FlatItems(ns), Counters(perm, MAX_DEPTH);
    forall i | 0 <= i < |items|
      ensures WellFormedAt(items, i, kept, false, false, kept)
    {
      assert GoodNode(ns[i], perm, MAX_DEPTH, false);
    }
  }

  /** A generated tree, its subroutine, and the program they are placed in. */
  datatype Plan = Plan(perm: seq<nat>, nodes: seq<Node>, items: seq<Item>, sub: seq<Node>, calls: bool)

  predicate PlanOk(g: Plan) {
    && IsPermutation(g.perm)
    && Realizes(g.nodes, g.items, false) && GoodNodes(g.nodes, g.perm, 0, g.calls)
    && Cost(g.nodes) + 3 <= CYCLE_BUDGET
    && IsFlat(g.sub) && GoodNodes(g.sub, g.perm, MAX_DEPTH, false)
    && Cost(g.sub) + 6 <= SUB_BUDGET
  }

  predicate PlanPlaced(g: Plan, prog: Program) {
    var end := SeqSize(g.items);
    var sub := end + 1;
    && end + Size(g.sub) + 1 < 511
    && Placed(prog, g.items, 0, end, end, sub)
    && Decode(Fetch(prog, end)) == Halt
    && (g.calls ==>
      && SeqSize(FlatItems(g.sub)) == Size(g.sub)
      && Placed(prog, FlatItems(g.sub), sub, sub + Size(g.sub), sub + Size(g.sub), sub)
      && Decode(Fetch(prog, sub + Size(g.sub))) == Ret)
  }

  function EnvOf(g: Plan, prog: Program, io: Stimulus): Env
    requires MAX_DEPTH <= |g.perm|
  {
    Env(prog, io, Charged(prog), SeqSize(g.items) + 1, FlatItems(g.sub), Counters(g.perm, MAX_DEPTH))
  }

  lemma PlanEnvironment(g: Plan, prog: Program, io: Stimulus)
    requires PlanOk(g) && PlanPlaced(g, prog)
    ensures var env := EnvOf(g, prog, io);
      && ContextOk(env, Context(g.items, 0, SeqSize(g.items), {}, false, g.calls))
      && (g.calls ==> CallWeight(env) + 3 <= SUB_BUDGET)
  {
    hide Placed, WellFormed, Realizes, GoodNodes, WeightFrom, Decode, IsFlat, Start, FlatItems;
    var env := EnvOf(g, prog, io);
    RealizesWellFormed(g.nodes, g.items, g.perm, 0, g.calls);
    assert Counters(g.perm, 0) == {};
    if g.calls {
      SubBranches(g);
      FlatWellFormed(g.sub, g.perm);
      FlatRealizes(g.sub);
      WeightWithinCost(prog, g.sub, env.subItems, g.perm, MAX_DEPTH, false, env.sub, env.sub + Size(g.sub), env.sub, 0);
    }
  }

  function MainContext(g: Plan): (x: Context)
    ensures x.base == 0 && !x.inLoop
  {
    Context(g.items, 0, SeqSize(g.items), {}, false, g.calls)
  }

  lemma PlanWeight(g: Plan, prog: Program, io: Stimulus)
    requires PlanOk(g) && PlanPlaced(g, prog)
    ensures MAX_DEPTH <= |g.perm| && Cost(g.nodes) + 3 <= CYCLE_BUDGET
    ensures var env, x := EnvOf(g, prog, io), MainContext(g);
      && env.prog == prog && env.io == io && env.wt == Charged(prog) && ContextOk(env, x)
      && Decode(Fetch(prog, End(x))) == Halt
      && WeightAt(env, x, 0) + env.wt(End(x)) <= Cost(g.nodes) + 3
  {
    hide ContextOk, Placed, Realizes, GoodNodes, Decode, CallWeight, WeightFrom, IsFlat, Start;
    var env, x := EnvOf(g, prog, io), MainContext(g);
    PlanEnvironment(g, prog, io);
    WeightWithinCost(prog, g.nodes, g.items, g.perm, 0, g.calls, 0, SeqSize(g.items), env.sub, CallWeightIn(env, x));
  }

  /** What the generator emits ends by construction: whatever the pins do, HALT is
      reached within the budget and no sticky flag is ever set. */
  lemma PlanHalts(g: Plan, prog: Program, io: Stimulus, t0: nat)
    requires PlanOk(g) && PlanPlaced(g, prog)
    ensures HaltsCleanly(prog, io, t0, Cost(g.nodes) + 3)
  {
    hide *;
    PlanWeight(g, prog, io);
    var tr, d := RunToHalt(EnvOf(g, prog, io), MainContext(g), t0);
    ChargedRun(prog, io, t0, tr, d, Cost(g.nodes) + 3);
  }

  /** A run whose charges stay within the budget executed only timed words of
      defined opcodes, so its charges bound its cycles. */
  lemma ChargedRun(prog: Program, io: Stimulus, t0: nat, tr: seq<nat>, d: Config, limit: nat)
    requires Path(prog, io, Config(Reset(), t0), tr, d) && Valid(d.s) && d.s.halted && !d.s.callRetMisuse
    requires Total(Charged(prog), tr) <= limit <= CYCLE_BUDGET
    ensures HaltsCleanly(prog, io, t0, limit)
  {
    hide Fetch, WordCost, Reset;
    var c, cost := Config(Reset(), t0), a => WordCost(Fetch(prog, a));
    forall k | 0 <= k < |tr|
      ensures Timed(Fetch(prog, tr[k])) && !IsReserved(prog, tr[k]) && cost(tr[k]) <= Charged(prog)(tr[k])
    {
      TotalMember(Charged(prog), tr, k);
    }
    PathCost(prog, io, c, tr, d);
    TotalMono(cost, Charged(prog), tr);
    IllegalFlagExact(prog, io, c, tr, d);
  }

  // ------------------------------------------------------------ the whole program

  const TOP := Exits(HaltLabel, HaltLabel)
  const BLANK := Draft([], [], 0)

  /** The main part: the tree, then HALT. */
  function MainDraft(items: seq<Item>): Draft
    requires Emittable(items)
  {
    Append(Push(EmitSeq(items, BLANK, TOP), HaltLabel), Fixed(Encode(Halt)))
  }

  function SubPart(g: Plan): seq<Entry> {
    if g.calls then SubEntries(g.sub) else []
  }

  lemma SubLabels(ns: seq<Node>)
    requires FlatCode(ns) != []
    ensures LabelsOf(SubEntries(ns)) == multiset{SubStart, SubReturn}
  {
    hide *;
    var body := Labelled(FlatCode(ns));
    LabelledLabels(FlatCode(ns), |FlatCode(ns)|);
    assert body[..|FlatCode(ns)|] == body;
    LabelsOfSnoc(body, Entry([SubReturn], Fixed(Encode(Ret))));
    SubEntriesIs(ns);
    TwoLabels();
  }

  lemma SubEntriesIs(ns: seq<Node>)
    ensures SubEntries(ns) == Labelled(FlatCode(ns)) + [Entry([SubReturn], Fixed(Encode(Ret)))]
  {
  }

  lemma TwoLabels()
    ensures multiset{SubStart} + multiset([SubReturn]) == multiset{SubStart, SubReturn}
  {
  }

  lemma LabelsOfSnoc(out: seq<Entry>, e: Entry)
    ensures LabelsOf(out + [e]) == LabelsOf(out) + multiset(e.labels)
  {
    assert (out + [e])[..|out|] == out;
  }

  lemma {:induction false} LabelledLabels(codes: seq<Code>, n: nat)
    requires 1 <= n <= |codes|
    ensures LabelsOf(Labelled(codes)[..n]) == multiset{SubStart}
    decreases n
  {
    var part := Labelled(codes)[..n];
    assert part[..n - 1] == Labelled(codes)[..n - 1];
    if n > 1 {
      LabelledLabels(codes, n - 1);
    }
  }

  lemma MainUnique(items: seq<Item>)
    requires Emittable(items)
    ensures Once(LabelsOf(MainDraft(items).out) + multiset{SubStart, SubReturn})
  {
    var subs := multiset{SubStart, SubReturn};
    BlankUnique(subs + multiset{HaltLabel});
    hide *;
    var d := EmitSeq(items, BLANK, TOP);
    EmitSeqUnique(items, BLANK, TOP, subs + multiset{HaltLabel});
    MainLabels(items);
    assert (AllLabels(d) + multiset{HaltLabel}) + subs == AllLabels(d) + (subs + multiset{HaltLabel});
    UniqueOnce(d, subs + multiset{HaltLabel});
  }

  lemma BlankUnique(reserved: multiset<Label>)
    requires reserved == multiset{SubStart, SubReturn} + multiset{HaltLabel}
    ensures Unique(BLANK, reserved)
  {
    assert AllLabels(BLANK) == multiset{};
  }

  lemma MainLabels(items: seq<Item>)
    requires Emittable(items)
    ensures LabelsOf(MainDraft(items).out) == AllLabels(EmitSeq(items, BLANK, TOP)) + multiset{HaltLabel}
  {
    var d := EmitSeq(items, BLANK, TOP);
    AllLabelsPush(d, HaltLabel);
    AllLabelsAppend(Push(d, HaltLabel), Fixed(Encode(Halt)));
    hide EmitSeq, LabelsOf, Encode;
    assert MainDraft(items).pending == [];
    assert multiset(MainDraft(items).pending) == multiset{};
  }

  lemma UniqueOnce(d: Draft, reserved: multiset<Label>)
    requires Unique(d, reserved)
    ensures Once(AllLabels(d) + reserved)
  {
  }

  /** No label occurs twice in the whole listing. */
  lemma ListingUnique(g: Plan)
    requires Emittable(g.items) && (g.calls ==> FlatCode(g.sub) != [])
    ensures Once(LabelsOf(MainDraft(g.items).out + SubPart(g)))
  {
    MainUnique(g.items);
    LabelsOfConcat(MainDraft(g.items).out, SubPart(g));
    if g.calls {
      SubLabels(g.sub);
    } else {
      var all := LabelsOf(MainDraft(g.items).out) + multiset{SubStart, SubReturn};
      assert forall l :: l in LabelsOf(MainDraft(g.items).out) ==> all[l] >= LabelsOf(MainDraft(g.items).out)[l];
    }
  }

  /** Every entry's labels look up to its address, and every word is its resolved code. */
  predicate Resolved(out: seq<Entry>, words: Program, table: Table) {
    forall k :: 0 <= k < |out| ==> Names(table, out[k].labels, k) && Fetch(words, k) == Resolve(out[k].code, table)
  }

  lemma ListingResolved(g: Plan, out: seq<Entry>, words: Program)
    requires Emittable(g.items) && (g.calls ==> FlatCode(g.sub) != [])
    requires out == MainDraft(g.items).out + SubPart(g) && |words| == |out|
    requires forall k :: 0 <= k < |out| ==> words[k] == Resolve(out[k].code, Dictionary(out, |out|))
    ensures Resolved(out, words, Dictionary(out, |out|))
  {
    ListingUnique(g);
    hide Names, Resolve, Dictionary, Once, LabelsOf, MainDraft, SubPart;
    forall k | 0 <= k < |out|
      ensures Names(Dictionary(out, |out|), out[k].labels, k)
      ensures Fetch(words, k) == Resolve(out[k].code, Dictionary(out, |out|))
    {
      DictionaryAgrees(out, |out|, k);
    }
  }

  lemma DraftHolds(d: Draft, out: seq<Entry>, words: Program, table: Table)
    requires Resolved(out, words, table) && d.out <= out && d.pending == []
    ensures Agrees(table, d) && Matches(words, table, d.out)
  {
    hide Resolve, Fetch;
    assert forall k :: 0 <= k < |d.out| ==> d.out[k] == out[k];
  }

  /** The main part of a resolved listing: the tree, and HALT where its label leads. */
  lemma MainHolds(items: seq<Item>, out: seq<Entry>, words: Program, table: Table)
    requires Emittable(items) && MainDraft(items).out <= out && Resolved(out, words, table)
    ensures |MainDraft(items).out| == SeqSize(items) + 1
    ensures var d := EmitSeq(items, BLANK, TOP);
      && Agrees(table, d) && Matches(words, table, d.out) && |d.out| == SeqSize(items)
      && Lookup(table, HaltLabel) == SeqSize(items) && Decode(Fetch(words, SeqSize(items))) == Halt
  {
    var d, main := EmitSeq(items, BLANK, TOP), MainDraft(items);
    EmitSeqGrows(items, BLANK, TOP);
    DraftHolds(main, out, words, table);
    AgreesAppend(table, Push(d, HaltLabel), Fixed(Encode(Halt)));
    AgreesPush(table, d, HaltLabel);
    MatchesPrefix(words, table, d, main);
    hide EmitSeq, Agrees, Resolved, Decode, Encode, Fetch, SeqSize;
    assert main.out[|d.out|].code == Fixed(Encode(Halt));
    DecodeEncode(Halt);
  }

  lemma BlankIs(items: seq<Item>, table: Table, calls: bool)
    requires SeqSize(items) < 511 && Lookup(table, HaltLabel) == SeqSize(items)
    requires calls ==> Lookup(table, SubStart) == SeqSize(items) + 1 < 512
    ensures |BLANK.out| == 0 && ExitsOk(table, TOP, SeqSize(items), SeqSize(items), false, calls, SeqSize(items) + 1)
  {
    hide SeqSize;
  }

  lemma PlanParts(g: Plan)
    requires PlanOk(g)
    ensures IsPermutation(g.perm) && Realizes(g.nodes, g.items, false) && GoodNodes(g.nodes, g.perm, 0, g.calls)
    ensures 0 <= MAX_DEPTH <= |g.perm| && Counters(g.perm, 0) == {}
  {
    hide Realizes, GoodNodes;
  }

  lemma PlanPlacedIs(g: Plan, prog: Program)
    requires SeqSize(g.items) + Size(g.sub) + 1 < 511
    requires var end := SeqSize(g.items);
             Placed(prog, g.items, 0, end, end, end + 1) && Decode(Fetch(prog, end)) == Halt
    requires var sub := SeqSize(g.items) + 1;
      g.calls ==>
        && SeqSize(FlatItems(g.sub)) == Size(g.sub)
        && Placed(prog, FlatItems(g.sub), sub, sub + Size(g.sub), sub + Size(g.sub), sub)
        && Decode(Fetch(prog, sub + Size(g.sub))) == Ret
    ensures PlanPlaced(g, prog)
  {
    hide Placed, SeqSize, Size, Decode;
  }

  lemma MainPart(g: Plan, out: seq<Entry>)
    requires Emittable(g.items) && out == MainDraft(g.items).out + SubPart(g)
    ensures MainDraft(g.items).out <= out && (g.calls ==> out == MainDraft(g.items).out + SubEntries(g.sub))
  {
    hide MainDraft, SubEntries;
  }

  /** Labels looked up, the listing is the placed plan. */
  lemma ListingPlaced(g: Plan, out: seq<Entry>, words: Program)
    requires PlanOk(g) && Emittable(g.items) && (g.calls ==> FlatCode(g.sub) != [])
    requires out == MainDraft(g.items).out + SubPart(g) && |words| == |out| <= PROGRAM_WORD_LIMIT
    requires SeqSize(g.items) + Size(g.sub) + 2 < 511
    requires forall k :: 0 <= k < |out| ==> words[k] == Resolve(out[k].code, Dictionary(out, |out|))
    ensures PlanPlaced(g, words)
  {
    hide *;
    var table, end := Dictionary(out, |out|), SeqSize(g.items);
    ListingResolved(g, out, words);
    MainPart(g, out);
    MainHolds(g.items, out, words, table);
    if g.calls {
      SubListing(g, out, words, table);
    }
    PlanParts(g);
    RealizesWellFormed(g.nodes, g.items, g.perm, 0, g.calls);
    BlankIs(g.items, table, g.calls);
    EmitPlaced(words, table, g.items, BLANK, TOP, end, end + 1, {}, false, g.calls, Counters(g.perm, MAX_DEPTH));
    PlanPlacedIs(g, words);
  }

  lemma SubListing(g: Plan, out: seq<Entry>, words: Program, table: Table)
    requires PlanOk(g) && Emittable(g.items) && g.calls && FlatCode(g.sub) != []
    requires out == MainDraft(g.items).out + SubEntries(g.sub) && |MainDraft(g.items).out| == SeqSize(g.items) + 1
    requires SeqSize(g.items) + Size(g.sub) + 2 < 511
    requires Resolved(out, words, table)
    ensures Lookup(table, SubStart) == SeqSize(g.items) + 1
    ensures var sub := SeqSize(g.items) + 1;
      && SeqSize(FlatItems(g.sub)) == Size(g.sub)
      && Placed(words, FlatItems(g.sub), sub, sub + Size(g.sub), sub + Size(g.sub), sub)
      && Decode(Fetch(words, sub + Size(g.sub))) == Ret
  {
    var entries, sub := SubEntries(g.sub), SeqSize(g.items) + 1;
    hide *;
    SubBranches(g);
    SubEnds(g.sub);
    TailResolved(MainDraft(g.items).out, entries, words, table);
    NamedAt(table, entries[0].labels, SubStart, sub + 0);
    NamedAt(table, entries[Size(g.sub)].labels, SubReturn, sub + Size(g.sub));
    SubPlaced(words, table, g.sub, sub);
  }

  lemma NamedAt(table: Table, ls: seq<Label>, l: Label, a: nat)
    requires Names(table, ls, a) && l in ls
    ensures Lookup(table, l) == a
  {
  }

  lemma TailResolved(main: seq<Entry>, entries: seq<Entry>, words: Program, table: Table)
    requires Resolved(main + entries, words, table)
    ensures forall k :: 0 <= k < |entries| ==> Fetch(words, |main| + k) == Resolve(entries[k].code, table)
    ensures forall k :: 0 <= k < |entries| ==> Names(table, entries[k].labels, |main| + k)
  {
    hide Names, Resolve, Fetch;
    forall k | 0 <= k < |entries|
      ensures Fetch(words, |main| + k) == Resolve(entries[k].code, table) && Names(table, entries[k].labels, |main| + k)
    {
      assert (main + entries)[|main| + k] == entries[k];
    }
  }

  lemma SubBranches(g: Plan)
    requires PlanOk(g)
    ensures IsFlat(g.sub) && forall i :: 0 <= i < |g.sub| ==> g.sub[i].NBranch? ==> g.sub[i].cond < COND_CALL
  {
    hide Realizes, GoodLeaf;
    assert forall i :: 0 <= i < |g.sub| ==> GoodNode(g.sub[i], g.perm, MAX_DEPTH, false);
  }

  lemma SubEnds(ns: seq<Node>)
    requires IsFlat(ns) && FlatCode(ns) != []
    ensures |SubEntries(ns)| == Size(ns) + 1
    ensures SubEntries(ns)[0].labels == [SubStart] && SubEntries(ns)[Size(ns)].labels == [SubReturn]
  {
    FlatLength(ns);
    hide FlatCode, Size;
  }

  /** `rng.sample(range(4), 4)`, as a sequence of swaps. */
  method Shuffle() returns (perm: seq<nat>)
    ensures IsPermutation(perm)
  {
    perm := [0, 1, 2, 3];
    for i := 0 to 4
      invariant IsPermutation(perm)
    {
      var j := RandInt(i, 3);
      perm := perm[i := perm[j]][j := perm[i]];
    }
  }

  /** The main part is complete: it has as many items as were drawn, at least twenty, unless
      fewer than three cycles of the budget or no word of the memory was left. */
  predicate Full(g: Plan) {
    && |g.nodes| <= 45
    && (|g.nodes| >= 20 || CYCLE_BUDGET - 3 - Cost(g.nodes) < 3
       || Size(g.nodes) + Size(g.sub) + 2 >= PROGRAM_WORD_LIMIT)
  }

  /** The words of a plan: the main part, HALT, and the subroutine exactly if it is called. */
  function PlanLength(g: Plan): nat {
    Size(g.nodes) + 1 + (if HasCall(g.nodes) then Size(g.sub) + 1 else 0)
  }

  /** The generator. Neither of its final assertions can fail: the program fits the
      program memory and its worst case fits the budget. The program is a complete plan, laid
      out. And for every choice of the random numbers, every start cycle and all pin activity
      whatever, it runs from reset to HALT within `CYCLE_BUDGET` cycles, with neither sticky
      flag set. */
  method GenerateProgram(delays: Caps, waits: Caps) returns (words: Program, ghost plan: Plan)
    requires DelayCaps(delays) && WaitCaps(waits)
    ensures |words| == PlanLength(plan) <= PROGRAM_WORD_LIMIT
    ensures PlanOk(plan) && PlanPlaced(plan, words) && Full(plan) && (plan.calls <==> HasCall(plan.nodes))
    ensures OneBranch(plan.sub) && 2 <= Size(plan.sub) <= 8
    ensures forall io: Stimulus, t0: nat :: HaltsCleanly(words, io, t0, CYCLE_BUDGET)
  {
    hide HaltsCleanly, PlanPlaced, OneBranch, Dictionary, FlatCode, EmitSeq;
    var perm := Shuffle();
    var g := new Gen(perm, delays, waits);
    var sub, subNodes := g.Sub();
    FlatLength(subNodes);
    var nMax := RandInt(20, 45);
    var nodes, cost, size := g.Seq(0, CYCLE_BUDGET - 3, PROGRAM_WORD_LIMIT - |sub| - 1, nMax, true);
    var calls := HasCall(nodes);
    if !calls {
      sub := [];
      CallFree(nodes, perm, 0);
    }
    ghost var items := g.Emit(nodes, TOP, false, 0);
    g.pending := g.pending + [HaltLabel];
    g.Write(Fixed(Encode(Halt)));
    var out := g.out + sub;
    var labels := BuildLabels(out);
    words := ResolveAll(out, labels);

    plan := Plan(perm, nodes, items, subNodes, calls);
    CodeThere(subNodes);
    PlanMade(plan, out, words);
  }

  lemma CodeThere(ns: seq<Node>)
    requires IsFlat(ns) && ns != []
    ensures FlatCode(ns) != []
  {
    FlatLength(ns);
    hide FlatCode;
  }

  /** The listing of a plan, assembled. */
  lemma PlanMade(g: Plan, out: seq<Entry>, words: Program)
    requires PlanOk(g) && Emittable(g.items) && FlatCode(g.sub) != [] && (g.calls <==> HasCall(g.nodes))
    requires Size(g.nodes) + Size(g.sub) + 2 <= PROGRAM_WORD_LIMIT
    requires out == MainDraft(g.items).out + SubPart(g) && |words| == |out|
    requires forall k :: 0 <= k < |out| ==> words[k] == Resolve(out[k].code, Dictionary(out, |out|))
    ensures PlanPlaced(g, words) && |words| == PlanLength(g) <= PROGRAM_WORD_LIMIT
    ensures forall io: Stimulus, t0: nat :: HaltsCleanly(words, io, t0, CYCLE_BUDGET)
  {
    hide *;
    PlanSizes(g);
    ListingPlaced(g, out, words);
    forall io: Stimulus, t0: nat ensures HaltsCleanly(words, io, t0, CYCLE_BUDGET) {
      PlanHalts(g, words, io, t0);
      HaltsCleanlyMono(words, io, t0, Cost(g.nodes) + 3, CYCLE_BUDGET);
    }
  }

  lemma PlanSizes(g: Plan)
    requires PlanOk(g) && Emittable(g.items) && FlatCode(g.sub) != [] && (g.calls <==> HasCall(g.nodes))
    ensures SeqSize(g.items) == Size(g.nodes) && |MainDraft(g.items).out + SubPart(g)| == PlanLength(g)
    ensures Cost(g.nodes) + 3 <= CYCLE_BUDGET && PROGRAM_WORD_LIMIT == 256
    ensures PlanLength(g) <= Size(g.nodes) + Size(g.sub) + 2
  {
    EmitSeqGrows(g.items, BLANK, TOP);
    RealizesSize(g.nodes, g.items, false, |g.nodes|);
    SubEnds(g.sub);
    hide EmitSeq, Realizes, GoodNodes, SubEntries, FlatCode, Cost, IsFlat;
  }

  lemma HaltsCleanlyMono(prog: Program, io: Stimulus, t0: nat, a: nat, b: nat)
    requires HaltsCleanly(prog, io, t0, a) && a <= b
    ensures HaltsCleanly(prog, io, t0, b)
  {
  }

  /** Nothing else can happen: at any point of any run of such a program, HALT is
      still ahead within the limit and both sticky flags are clear. */
  lemma EveryRunIsClean(prog: Program, io: Stimulus, t0: nat, limit: nat, tr: seq<nat>, d: Config)
    requires HaltsCleanly(prog, io, t0, limit) && Path(prog, io, Config(Reset(), t0), tr, d)
    ensures d.t <= t0 + limit && !d.s.illegalOp && !d.s.callRetMisuse
  {
    var c := Config(Reset(), t0);
    var tr1: seq<nat>, d1: Config :| Path(prog, io, c, tr1, d1) && d1.s.halted && d1.t <= t0 + limit
      && !d1.s.illegalOp && !d1.s.callRetMisuse;
    PathPrefix(prog, io, c, tr1, d1, tr, d);
    IllegalFlagExact(prog, io, d, tr1[|tr|..], d1);
    MisuseFlagExact(prog, io, d, tr1[|tr|..], d1);
    PathTime(prog, io, d, tr1[|tr|..], d1);
  }
}
