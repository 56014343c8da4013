/** Structured programs: straight-line words, forward branches, calls of one
    subroutine and counted loops, placed in a flat program.

    Both random program generators emit code of this shape. The theorem here is
    about the flat code: executed by the sequencer it always leaves the sequence
    it is in, having kept every live loop counter, and no weighting of addresses
    can add up to more along the way than the static sum over the structure. */
module Structured {
  import opened Bits
  import opened Isa
  import opened Machine
  import opened Runs

  datatype Target = Sibling(index: nat) | Continue | Break

  datatype Item =
    | Leaf(word: Word)
    | Branch(pre: seq<Word>, cond: nat, target: Target)
    | Call
    | Loop(reg: nat, count: nat, body: seq<Item>)

  // ------------------------------------------------------------ layout

  function ItemSize(it: Item): (n: nat)
    ensures n >= 1
    decreases it, 0
  {
    match it
    case Leaf(_) => 1
    case Branch(pre, _, _) => |pre| + 1
    case Call => 1
    case Loop(_, _, body) => Start(body, |body|) + 2
  }

  /** The offset of item `i` in the flat code of the sequence. */
  function Start(items: seq<Item>, i: nat): nat
    requires i <= |items|
    decreases items, i
  {
    if i == 0 then 0 else Start(items, i - 1) + ItemSize(items[i - 1])
  }

  function SeqSize(items: seq<Item>): nat {
    Start(items, |items|)
  }

  lemma {:induction false} StartMonotone(items: seq<Item>, i: nat, j: nat)
    requires i <= j <= |items|
    ensures Start(items, i) + (j - i) <= Start(items, j)
    decreases j - i
  {
    if i < j {
      StartMonotone(items, i, j - 1);
    }
  }

  // ------------------------------------------------------------ well-formedness

  /** Words that fall through: no HALT, RET, BRANCH or LOOP, and no WAIT that can
      wait for ever. */
  predicate LeafWord(w: Word) {
    var i := Decode(w);
    (IsData(i) || i.Delay? || i.Wait?) && Timed(w)
  }

  predicate Keeps(w: Word, live: set<nat>) {
    var i := Decode(w);
    Writes(i) ==> i.rd !in live
  }

  predicate SafeLeaf(w: Word, live: set<nat>) {
    LeafWord(w) && Keeps(w, live)
  }

  predicate GoodTarget(target: Target, i: nat, n: nat, inLoop: bool) {
    match target
    case Sibling(j) => i < j < n
    case Continue => true
    case Break => inLoop
  }

  /** `live` holds the counters of the enclosing loops; a call is allowed only if
      the subroutine keeps all of them (`kept`). */
  predicate WellFormed(items: seq<Item>, live: set<nat>, inLoop: bool, calls: bool, kept: set<nat>)
    decreases items, 1
  {
    forall i :: 0 <= i < |items| ==> WellFormedAt(items, i, live, inLoop, calls, kept)
  }

  predicate WellFormedAt(items: seq<Item>, i: nat, live: set<nat>, inLoop: bool, calls: bool, kept: set<nat>)
    requires i < |items|
    decreases items, 0
  {
    match items[i]
    case Leaf(w) => SafeLeaf(w, live)
    case Branch(pre, cond, target) =>
      && (forall k :: 0 <= k < |pre| ==> SafeLeaf(pre[k], live))
      && cond < COND_CALL
      && GoodTarget(target, i, |items|, inLoop)
    case Call => calls && live <= kept
    case Loop(reg, count, body) =>
      && reg < 4 && reg !in live
      && 1 <= count < 256
      && WellFormed(body, live + {reg}, true, calls, kept)
  }

  // ------------------------------------------------------------ placement

  function TargetAddress(items: seq<Item>, base: nat, target: Target, cont: nat, brk: nat): nat {
    match target
    case Sibling(j) => if j <= |items| then base + Start(items, j) else cont
    case Continue => cont
    case Break => brk
  }

  /** The program holds the flat code of `items` at `base`; `cont` and `brk` are
      where `continue` and `break` lead, `sub` is the subroutine. */
  predicate Placed(prog: Program, items: seq<Item>, base: nat, cont: nat, brk: nat, sub: nat)
    decreases items, 1
  {
    forall i :: 0 <= i < |items| ==> PlacedAt(prog, items, i, base, cont, brk, sub)
  }

  predicate PlacedAt(prog: Program, items: seq<Item>, i: nat, base: nat, cont: nat, brk: nat, sub: nat)
    requires i < |items|
    decreases items, 0
  {
    var a := base + Start(items, i);
    match items[i]
    case Leaf(w) => Fetch(prog, a) == w
    case Branch(pre, cond, target) =>
      && (forall k :: 0 <= k < |pre| ==> Fetch(prog, a + k) == pre[k])
      && Decode(Fetch(prog, a + |pre|)) == Instr.Branch(cond, TargetAddress(items, base, target, cont, brk))
    case Call => Decode(Fetch(prog, a)) == Instr.Branch(COND_CALL, sub)
    case Loop(reg, count, body) =>
      var lp := a + 1 + SeqSize(body);
      && Decode(Fetch(prog, a)) == Ldi(reg, count)
      && Placed(prog, body, a + 1, lp, lp + 1, sub)
      && Decode(Fetch(prog, lp)) == Instr.Loop(a + 1, reg)
  }

  // ------------------------------------------------------------ static weight

  /** `cw` is the weight of one run of the subroutine, its RET included. */
  function ItemWeight(it: Item, a: nat, wt: nat -> nat, cw: nat): nat
    decreases it, 0, 0
  {
    match it
    case Leaf(_) => wt(a)
    case Branch(pre, _, _) => SpanWeight(a, |pre| + 1, wt)
    case Call => wt(a) + cw
    case Loop(_, count, body) =>
      wt(a) + count * (WeightFrom(body, 0, a + 1, wt, cw) + wt(a + 1 + SeqSize(body)))
  }

  function SpanWeight(a: nat, n: nat, wt: nat -> nat): nat
    decreases n
  {
    if n == 0 then 0 else wt(a) + SpanWeight(a + 1, n - 1, wt)
  }

  function WeightFrom(items: seq<Item>, i: nat, base: nat, wt: nat -> nat, cw: nat): nat
    requires i <= |items|
    decreases items, 1, |items| - i
  {
    if i == |items| then 0
    else ItemWeight(items[i], base + Start(items, i), wt, cw) + WeightFrom(items, i + 1, base, wt, cw)
  }

  lemma {:induction false} WeightShrinks(items: seq<Item>, i: nat, j: nat, base: nat, wt: nat -> nat, cw: nat)
    requires i <= j <= |items|
    ensures WeightFrom(items, j, base, wt, cw) <= WeightFrom(items, i, base, wt, cw)
    decreases j - i
  {
    if i < j {
      WeightShrinks(items, i + 1, j, base, wt, cw);
    }
  }

  // ------------------------------------------------------------ single instructions

  /** Everything an execution inside a sequence leaves as it was. */
  predicate Frame(s: State, r: State, live: set<nat>)
    requires Valid(s) && Valid(r)
  {
    && (forall g :: g in live && g < 4 ==> r.regs[g] == s.regs[g])
    && r.returnValid == s.returnValid
    && r.callRetMisuse == s.callRetMisuse
    && r.halted == s.halted
  }

  lemma LeafStep(prog: Program, io: Stimulus, c: Config, live: set<nat>) returns (d: Config)
    requires Live(c) && c.s.pc < 511
    requires SafeLeaf(Fetch(prog, c.s.pc), live)
    ensures Live(d) && Path(prog, io, c, [c.s.pc], d)
    ensures d.s.pc == c.s.pc + 1
    ensures Frame(c.s, d.s, live) && d.s.retaddr == c.s.retaddr
  {
    hide Step, SafeLeaf, Path, Decode, Fetch;
    LeafOutcome(c.s, Fetch(prog, c.s.pc), io, c.t + 2, live);
    d := After(c, Advance(prog, io, c));
    OneStep(prog, io, c, d);
  }

  lemma LeafOutcome(s: State, w: Word, io: Stimulus, t: nat, live: set<nat>)
    requires Valid(s) && s.pc < 511 && SafeLeaf(w, live)
    ensures var r := Step(s, w, io, t);
      r.Next? && r.state.pc == s.pc + 1 && Frame(s, r.state, live) && r.state.retaddr == s.retaddr
  {
    var i := Decode(w);
    if i.Wait? {
      WaitBounded(s, w, io, t);
      hide Step;
    } else if i.Delay? {
      hide DataEffect;
    } else {
      DataFrame(s, i, io(t));
      DataRegisters(s, i, io(t));
      hide DataEffect, Result, Decode;
    }
  }

  lemma OneStep(prog: Program, io: Stimulus, c: Config, d: Config)
    requires Live(c) && Advance(prog, io, c).Next? && d == After(c, Advance(prog, io, c))
    ensures Path(prog, io, c, [c.s.pc], d)
  {
    hide Advance;
    assert [c.s.pc][1..] == [];
  }

  lemma LdiStep(prog: Program, io: Stimulus, c: Config, reg: nat, v: nat) returns (d: Config)
    requires Live(c) && c.s.pc < 511 && reg < 4 && v < 256
    requires Decode(Fetch(prog, c.s.pc)) == Ldi(reg, v)
    ensures Live(d) && Path(prog, io, c, [c.s.pc], d)
    ensures d.s == Goto(SetReg(c.s, reg, v), c.s.pc + 1)
  {
    d := After(c, Advance(prog, io, c));
    OneStep(prog, io, c, d);
  }

  lemma LoopStep(prog: Program, io: Stimulus, c: Config, reg: nat, target: nat) returns (d: Config)
    requires Live(c) && c.s.pc < 511 && reg < 4 && 1 <= c.s.regs[reg]
    requires Decode(Fetch(prog, c.s.pc)) == Instr.Loop(target, reg)
    ensures Live(d) && Path(prog, io, c, [c.s.pc], d)
    ensures d.s == Goto(SetReg(c.s, reg, c.s.regs[reg] - 1), if c.s.regs[reg] == 1 then c.s.pc + 1 else target)
  {
    d := After(c, Advance(prog, io, c));
    OneStep(prog, io, c, d);
  }

  lemma BranchStep(prog: Program, io: Stimulus, c: Config, cond: nat, target: nat) returns (d: Config)
    requires Live(c) && c.s.pc < 511 && cond < COND_CALL
    requires Decode(Fetch(prog, c.s.pc)) == Instr.Branch(cond, target)
    ensures Live(d) && Path(prog, io, c, [c.s.pc], d)
    ensures d.s.pc == target || d.s.pc == c.s.pc + 1
    ensures d.s == Goto(c.s, d.s.pc)
  {
    d := After(c, Advance(prog, io, c));
    OneStep(prog, io, c, d);
  }

  lemma CallStep(prog: Program, io: Stimulus, c: Config, target: nat) returns (d: Config)
    requires Live(c) && c.s.pc < 511 && !c.s.returnValid
    requires Decode(Fetch(prog, c.s.pc)) == Instr.Branch(COND_CALL, target)
    ensures Live(d) && Path(prog, io, c, [c.s.pc], d)
    ensures d.s == Called(c.s, target)
  {
    d := After(c, Advance(prog, io, c));
    OneStep(prog, io, c, d);
  }

  lemma RetStep(prog: Program, io: Stimulus, c: Config) returns (d: Config)
    requires Live(c) && c.s.returnValid
    requires Decode(Fetch(prog, c.s.pc)) == Ret
    ensures Live(d) && Path(prog, io, c, [c.s.pc], d)
    ensures d.s == Returned(c.s)
  {
    d := After(c, Advance(prog, io, c));
    OneStep(prog, io, c, d);
  }

  // ------------------------------------------------------------ sequences

  /** A program, its pins over time, a weight, and where its subroutine is. */
  datatype Env = Env(prog: Program, io: Stimulus, wt: nat -> nat, sub: nat, subItems: seq<Item>, kept: set<nat>)

  predicate EnvOk(env: Env) {
    var end := env.sub + SeqSize(env.subItems);
    && end < 511
    && WellFormed(env.subItems, env.kept, false, false, env.kept)
    && Placed(env.prog, env.subItems, env.sub, end, end, env.sub)
    && Decode(Fetch(env.prog, end)) == Ret
  }

  function CallWeight(env: Env): nat {
    WeightFrom(env.subItems, 0, env.sub, env.wt, 0) + env.wt(env.sub + SeqSize(env.subItems))
  }

  /** A stretch of execution within a weight. */
  predicate Moved(env: Env, c: Config, tr: seq<nat>, d: Config, bound: nat) {
    Live(c) && Live(d) && Path(env.prog, env.io, c, tr, d) && Total(env.wt, tr) <= bound
  }

  lemma MovedOne(env: Env, c: Config, d: Config)
    requires Live(c) && Live(d) && Path(env.prog, env.io, c, [c.s.pc], d)
    ensures Moved(env, c, [c.s.pc], d, env.wt(c.s.pc))
  {
    TotalOne(env.wt, c.s.pc);
  }

  lemma MovedThen(env: Env, c: Config, tr1: seq<nat>, d: Config, tr2: seq<nat>, e: Config, b1: nat, b2: nat)
    requires Moved(env, c, tr1, d, b1) && Moved(env, d, tr2, e, b2)
    ensures Moved(env, c, tr1 + tr2, e, b1 + b2)
  {
    PathAppend(env.prog, env.io, c, tr1, d, tr2, e);
    TotalAppend(env.wt, tr1, tr2);
  }

  /** A stretch of execution that also kept the frame. */
  predicate Ran(env: Env, c: Config, tr: seq<nat>, d: Config, live: set<nat>, calls: bool, bound: nat) {
    && Moved(env, c, tr, d, bound)
    && Frame(c.s, d.s, live)
    && (!calls ==> d.s.retaddr == c.s.retaddr)
  }

  lemma RanThen(env: Env, c: Config, tr1: seq<nat>, d: Config, tr2: seq<nat>, e: Config,
                live: set<nat>, calls: bool, b1: nat, b2: nat)
    requires Ran(env, c, tr1, d, live, calls, b1) && Ran(env, d, tr2, e, live, calls, b2)
    ensures Ran(env, c, tr1 + tr2, e, live, calls, b1 + b2)
  {
    MovedThen(env, c, tr1, d, tr2, e, b1, b2);
  }

  lemma RanWeaken(env: Env, c: Config, tr: seq<nat>, d: Config, live: set<nat>, calls: bool, b: nat, live': set<nat>,
                  b': nat)
    requires Ran(env, c, tr, d, live, calls, b) && live' <= live && b <= b'
    ensures Ran(env, c, tr, d, live', calls, b')
  {
  }

  lemma RanOne(env: Env, c: Config, d: Config, live: set<nat>, calls: bool)
    requires Live(c) && Live(d) && Path(env.prog, env.io, c, [c.s.pc], d)
    requires Frame(c.s, d.s, live) && (!calls ==> d.s.retaddr == c.s.retaddr)
    ensures Ran(env, c, [c.s.pc], d, live, calls, env.wt(c.s.pc))
  {
    MovedOne(env, c, d);
  }

  /** A run of leaf words. */
  lemma {:induction false} Leaves(env: Env, words: seq<Word>, live: set<nat>, calls: bool, c: Config)
    returns (tr: seq<nat>, d: Config)
    requires Live(c) && c.s.pc + |words| <= 511
    requires forall k :: 0 <= k < |words| ==> Fetch(env.prog, c.s.pc + k) == words[k] && SafeLeaf(words[k], live)
    ensures Ran(env, c, tr, d, live, calls, SpanWeight(c.s.pc, |words|, env.wt))
    ensures d.s.pc == c.s.pc + |words|
    decreases |words|
  {
    hide SafeLeaf, Path, Fetch, Total;
    if words == [] {
      tr, d := [], c;
      StayPut(env, c, live, calls);
    } else {
      assert Fetch(env.prog, c.s.pc + 0) == words[0];
      var c1 := LeafStep(env.prog, env.io, c, live);
      RanOne(env, c, c1, live, calls);
      forall k | 0 <= k < |words[1..]|
        ensures Fetch(env.prog, c1.s.pc + k) == words[1..][k] && SafeLeaf(words[1..][k], live)
      {
        assert Fetch(env.prog, c.s.pc + (k + 1)) == words[k + 1];
      }
      var tr1, d1 := Leaves(env, words[1..], live, calls, c1);
      tr, d := [c.s.pc] + tr1, d1;
      RanThen(env, c, [c.s.pc], c1, tr1, d, live, calls, env.wt(c.s.pc), SpanWeight(c1.s.pc, |words| - 1, env.wt));
    }
  }

  lemma {:induction false} SpanWeightSnoc(a: nat, n: nat, wt: nat -> nat)
    ensures SpanWeight(a, n + 1, wt) == SpanWeight(a, n, wt) + wt(a + n)
    decreases n
  {
    if n > 0 {
      SpanWeightSnoc(a + 1, n - 1, wt);
    }
  }

  /** The sequence the machine is in: where it is placed and what it must keep. */
  datatype Context = Context(items: seq<Item>, base: nat, brk: nat, live: set<nat>, inLoop: bool, calls: bool)

  function End(x: Context): nat {
    x.base + SeqSize(x.items)
  }

  predicate ContextOk(env: Env, x: Context) {
    && End(x) < 511
    && WellFormed(x.items, x.live, x.inLoop, x.calls, env.kept)
    && Placed(env.prog, x.items, x.base, End(x), x.brk, env.sub)
    && (x.calls ==> EnvOk(env))
  }

  function WeightAt(env: Env, x: Context, i: nat): nat
    requires i <= |x.items|
  {
    WeightFrom(x.items, i, x.base, env.wt, CallWeightIn(env, x))
  }

  /** At item `i` of the sequence, with no call pending if calls may come. */
  predicate At(env: Env, x: Context, i: nat, c: Config)
    requires i <= |x.items|
  {
    Live(c) && c.s.pc == x.base + Start(x.items, i) && (x.calls ==> !c.s.returnValid)
  }

  predicate Left(x: Context, d: Config) {
    d.s.pc == End(x) || (x.inLoop && d.s.pc == x.brk)
  }

  function CallWeightIn(env: Env, x: Context): nat {
    if x.calls then CallWeight(env) else 0
  }

  function ItemWeightAt(env: Env, x: Context, i: nat): nat
    requires i < |x.items|
  {
    ItemWeight(x.items[i], x.base + Start(x.items, i), env.wt, CallWeightIn(env, x))
  }

  /** After item `i`: at a later item, or out of the sequence. */
  predicate Onward(env: Env, x: Context, i: nat, d: Config, j: nat) {
    if j > |x.items| then Left(x, d) else i < j && At(env, x, j, d)
  }

  /** What placement and well-formedness say about an item. */
  lemma ItemOk(env: Env, x: Context, i: nat)
    requires ContextOk(env, x) && i < |x.items|
    ensures PlacedAt(env.prog, x.items, i, x.base, End(x), x.brk, env.sub)
    ensures WellFormedAt(x.items, i, x.live, x.inLoop, x.calls, env.kept)
    ensures x.base + Start(x.items, i) + ItemSize(x.items[i]) == x.base + Start(x.items, i + 1) <= End(x) < 511
    ensures x.calls ==> EnvOk(env)
  {
    hide PlacedAt, WellFormedAt, EnvOk, ItemSize;
    StartMonotone(x.items, i + 1, |x.items|);
  }

  /** What placement and well-formedness say about a branch item. */
  lemma BranchFacts(env: Env, x: Context, i: nat)
    requires ContextOk(env, x) && i < |x.items| && x.items[i].Branch?
    ensures var it, a := x.items[i], x.base + Start(x.items, i);
      && a + |it.pre| + 1 == x.base + Start(x.items, i + 1) <= End(x)
      && (forall k :: 0 <= k < |it.pre| ==> Fetch(env.prog, a + k) == it.pre[k] && SafeLeaf(it.pre[k], x.live))
      && it.cond < COND_CALL && GoodTarget(it.target, i, |x.items|, x.inLoop)
      && Decode(Fetch(env.prog, a + |it.pre|)) ==
         Instr.Branch(it.cond, TargetAddress(x.items, x.base, it.target, End(x), x.brk))
      && ItemWeightAt(env, x, i) == SpanWeight(a, |it.pre|, env.wt) + env.wt(a + |it.pre|)
  {
    ItemOk(env, x, i);
    hide Placed, WellFormed, EnvOk, Decode, SafeLeaf, ContextOk;
    SpanWeightSnoc(x.base + Start(x.items, i), |x.items[i].pre|, env.wt);
  }

  lemma RunBranch(env: Env, x: Context, i: nat, c: Config) returns (tr: seq<nat>, d: Config, j: nat)
    requires ContextOk(env, x) && i < |x.items| && At(env, x, i, c) && x.items[i].Branch?
    ensures Ran(env, c, tr, d, x.live, x.calls, ItemWeightAt(env, x, i)) && Onward(env, x, i, d, j)
  {
    BranchFacts(env, x, i);
    hide ContextOk, ItemWeightAt, Moved, Advance, Path, LeafWord, SafeLeaf;
    var it := x.items[i];
    var tr1, c1 := Leaves(env, it.pre, x.live, x.calls, c);
    var to := TargetAddress(x.items, x.base, it.target, End(x), x.brk);
    var c2 := BranchStep(env.prog, env.io, c1, it.cond, to);
    RanOne(env, c1, c2, x.live, x.calls);
    tr, d := tr1 + [c1.s.pc], c2;
    RanThen(env, c, tr1, c1, [c1.s.pc], c2, x.live, x.calls, SpanWeight(c.s.pc, |it.pre|, env.wt), env.wt(c1.s.pc));
    j := if d.s.pc == c1.s.pc + 1 then i + 1 else if it.target.Sibling? then it.target.index else |x.items| + 1;
  }

  lemma {:induction false} RunCall(env: Env, x: Context, i: nat, c: Config) returns (tr: seq<nat>, d: Config)
    requires ContextOk(env, x) && i < |x.items| && At(env, x, i, c) && x.items[i].Call?
    ensures Ran(env, c, tr, d, x.live, x.calls, ItemWeightAt(env, x, i)) && At(env, x, i + 1, d)
    decreases x.calls, x.items, 0, |x.items| - i, 0
  {
    hide *;
    CallFacts(env, x, i, c);
    var c1 := CallStep(env.prog, env.io, c, env.sub);
    var y := SubContext(env);
    AtSub(env, c, c1);
    var tr2, c2 := RunSequence(env, y, 0, c1);
    SubLeft(env, c1, tr2, c2);
    d := RetStep(env.prog, env.io, c2);
    tr := [c.s.pc] + tr2 + [c2.s.pc];
    CallReturn(env, x, c, c1, tr2, c2, d, WeightAt(env, y, 0));
    CallDone(env, x, i, c, d);
  }

  function SubContext(env: Env): (y: Context)
    ensures !y.calls && y.live == env.kept
  {
    Context(env.subItems, env.sub, env.sub + SeqSize(env.subItems), env.kept, false, false)
  }

  lemma CallFacts(env: Env, x: Context, i: nat, c: Config)
    requires ContextOk(env, x) && i < |x.items| && At(env, x, i, c) && x.items[i].Call?
    ensures Live(c) && c.s.pc < 511 && !c.s.returnValid
    ensures Decode(Fetch(env.prog, c.s.pc)) == Instr.Branch(COND_CALL, env.sub)
    ensures x.calls && x.live <= env.kept && EnvOk(env) && env.sub < 512
    ensures ItemWeightAt(env, x, i) ==
            env.wt(c.s.pc) + WeightAt(env, SubContext(env), 0) + env.wt(env.sub + SeqSize(env.subItems))
    ensures ContextOk(env, SubContext(env))
  {
    ItemOk(env, x, i);
    hide Placed, WellFormed, WeightFrom, Decode;
  }

  lemma AtSub(env: Env, c: Config, c1: Config)
    requires Live(c) && Live(c1) && env.sub < 512 && c1.s == Called(c.s, env.sub)
    ensures At(env, SubContext(env), 0, c1) && c1.s.returnValid
  {
  }

  lemma SubLeft(env: Env, c1: Config, tr2: seq<nat>, c2: Config)
    requires EnvOk(env) && Live(c1) && c1.s.returnValid
    requires Ran(env, c1, tr2, c2, env.kept, false, WeightAt(env, SubContext(env), 0))
    requires Left(SubContext(env), c2)
    ensures Live(c2) && c2.s.returnValid && Decode(Fetch(env.prog, c2.s.pc)) == Ret
    ensures c2.s.pc == env.sub + SeqSize(env.subItems)
  {
    hide Placed, WellFormed, WeightAt, Decode, Path, Total;
  }

  lemma CallDone(env: Env, x: Context, i: nat, c: Config, d: Config)
    requires i < |x.items| && x.items[i].Call? && At(env, x, i, c) && Live(d) && d.s.pc == c.s.pc + 1
    requires !d.s.returnValid
    ensures At(env, x, i + 1, d)
  {
  }

  /** CALL, the subroutine and RET, put together. */
  lemma CallReturn(env: Env, x: Context, c: Config, c1: Config, tr2: seq<nat>, c2: Config, d: Config, b: nat)
    requires x.live <= env.kept && x.calls && Live(c) && !c.s.returnValid && c.s.pc < 511 && env.sub < 512
    requires Live(c1) && Path(env.prog, env.io, c, [c.s.pc], c1) && c1.s == Called(c.s, env.sub)
    requires Ran(env, c1, tr2, c2, env.kept, false, b)
    requires Live(d) && Path(env.prog, env.io, c2, [c2.s.pc], d) && d.s == Returned(c2.s)
    ensures Ran(env, c, [c.s.pc] + tr2 + [c2.s.pc], d, x.live, x.calls, env.wt(c.s.pc) + b + env.wt(c2.s.pc))
    ensures d.s.pc == c.s.pc + 1 && !d.s.returnValid
  {
    hide Path;
    MovedOne(env, c, c1);
    MovedOne(env, c2, d);
    MovedThen(env, c, [c.s.pc], c1, tr2, c2, env.wt(c.s.pc), b);
    MovedThen(env, c, [c.s.pc] + tr2, c2, [c2.s.pc], d, env.wt(c.s.pc) + b, env.wt(c2.s.pc));
    hide Moved;
  }

  /** What placement and well-formedness say about a loop item. */
  lemma LoopFacts(env: Env, x: Context, i: nat)
    requires ContextOk(env, x) && i < |x.items| && x.items[i].Loop?
    ensures var it, a, y := x.items[i], x.base + Start(x.items, i), BodyContext(x, i);
      && Decode(Fetch(env.prog, a)) == Ldi(it.reg, it.count)
      && it.reg !in x.live && 1 <= it.count < 256
      && LoopContext(env, y, it.reg)
      && y.brk == x.base + Start(x.items, i + 1) <= End(x)
      && ItemWeightAt(env, x, i) == env.wt(a) + PassesWeight(env, y, it.count)
  {
    ItemOk(env, x, i);
    hide Placed, WellFormed, EnvOk, WeightFrom, Decode, CallWeightIn;
  }

  function BodyContext(x: Context, i: nat): Context
    requires i < |x.items| && x.items[i].Loop?
  {
    var it, a := x.items[i], x.base + Start(x.items, i);
    Context(it.body, a + 1, a + 2 + SeqSize(it.body), x.live + {it.reg}, true, x.calls)
  }

  /** LDI, then at most `count` passes over the body. */
  lemma {:induction false} RunLoop(env: Env, x: Context, i: nat, c: Config) returns (tr: seq<nat>, d: Config)
    requires ContextOk(env, x) && i < |x.items| && At(env, x, i, c) && x.items[i].Loop?
    ensures Ran(env, c, tr, d, x.live, x.calls, ItemWeightAt(env, x, i)) && At(env, x, i + 1, d)
    decreases x.calls, x.items, 0, |x.items| - i, 0
  {
    LoopFacts(env, x, i);
    hide Moved, Advance, Path, ItemWeightAt, PassesWeight, ContextOk;
    var it, y := x.items[i], BodyContext(x, i);
    var c1 := LdiStep(env.prog, env.io, c, it.reg, it.count);
    RanOne(env, c, c1, x.live, x.calls);
    var tr2, c2 := Passes(env, y, it.reg, it.count, c1);
    tr, d := [c.s.pc] + tr2, c2;
    RanWeaken(env, c1, tr2, c2, y.live - {it.reg}, x.calls, PassesWeight(env, y, it.count), x.live,
      PassesWeight(env, y, it.count));
    RanThen(env, c, [c.s.pc], c1, tr2, d, x.live, x.calls, env.wt(c.s.pc), PassesWeight(env, y, it.count));
  }

  function PassesWeight(env: Env, y: Context, n: nat): nat {
    n * (WeightAt(env, y, 0) + env.wt(End(y)))
  }

  predicate LoopContext(env: Env, y: Context, reg: nat) {
    && ContextOk(env, y) && y.inLoop && y.brk == End(y) + 1 && y.brk < 511
    && reg < 4 && reg in y.live
    && Decode(Fetch(env.prog, End(y))) == Instr.Loop(y.base, reg)
  }

  /** With `n` passes left in the counter, the loop ends just past its LOOP. */
  lemma {:induction false} Passes(env: Env, y: Context, reg: nat, n: nat, c: Config) returns (tr: seq<nat>, d: Config)
    requires LoopContext(env, y, reg) && At(env, y, 0, c) && c.s.regs[reg] == n >= 1
    ensures Ran(env, c, tr, d, y.live - {reg}, y.calls, PassesWeight(env, y, n))
    ensures d.s.pc == y.brk
    decreases y.calls, y.items, 1, n
  {
    hide *;
    var live, cw, w := y.live - {reg}, WeightAt(env, y, 0), WeightAt(env, y, 0) + env.wt(End(y));
    PassesUnfold(env, y, n);
    LoopContextFacts(env, y, reg);
    var tr1, c1 := RunSequence(env, y, 0, c);
    if LeftByBreak(y, c1) {
      tr, d := tr1, c1;
      RanWeaken(env, c, tr1, c1, y.live, y.calls, cw, live, PassesWeight(env, y, n));
    } else {
      var c2 := PassEnd(env, y, reg, n, c, tr1, c1);
      if n == 1 {
        tr, d := tr1 + [c1.s.pc], c2;
        RanWeaken(env, c, tr, d, live, y.calls, w, live, PassesWeight(env, y, n));
      } else {
        var tr3, d3 := Passes(env, y, reg, n - 1, c2);
        tr, d := tr1 + [c1.s.pc] + tr3, d3;
        RanThen(env, c, tr1 + [c1.s.pc], c2, tr3, d3, live, y.calls, w, PassesWeight(env, y, n - 1));
      }
    }
  }

  predicate LeftByBreak(y: Context, d: Config)
    ensures LeftByBreak(y, d) ==> d.s.pc == y.brk
    ensures Left(y, d) && !LeftByBreak(y, d) ==> d.s.pc == End(y)
  {
    d.s.pc == y.brk
  }

  lemma LoopContextFacts(env: Env, y: Context, reg: nat)
    requires LoopContext(env, y, reg)
    ensures ContextOk(env, y)
  {
  }

  /** The LOOP word after a pass: on to the next pass, or past it. */
  lemma PassEnd(env: Env, y: Context, reg: nat, n: nat, c: Config, tr1: seq<nat>, c1: Config) returns (c2: Config)
    requires LoopContext(env, y, reg) && At(env, y, 0, c) && c.s.regs[reg] == n >= 1
    requires Ran(env, c, tr1, c1, y.live, y.calls, WeightAt(env, y, 0)) && c1.s.pc == End(y)
    ensures Ran(env, c, tr1 + [c1.s.pc], c2, y.live - {reg}, y.calls, WeightAt(env, y, 0) + env.wt(End(y)))
    ensures if n == 1 then c2.s.pc == y.brk else At(env, y, 0, c2) && c2.s.regs[reg] == n - 1
  {
    hide ContextOk, Advance, Path, WeightAt, Total;
    var live, cw := y.live - {reg}, WeightAt(env, y, 0);
    c2 := LoopStep(env.prog, env.io, c1, reg, y.base);
    RanOne(env, c1, c2, live, y.calls);
    RanWeaken(env, c, tr1, c1, y.live, y.calls, cw, live, cw);
    RanThen(env, c, tr1, c1, [c1.s.pc], c2, live, y.calls, cw, env.wt(End(y)));
  }

  lemma PassesUnfold(env: Env, y: Context, n: nat)
    requires n >= 1
    ensures PassesWeight(env, y, n) == WeightAt(env, y, 0) + env.wt(End(y)) + PassesWeight(env, y, n - 1)
  {
    var w := WeightAt(env, y, 0) + env.wt(End(y));
    assert n * w == w + (n - 1) * w;
  }

  lemma {:induction false} RunItem(env: Env, x: Context, i: nat, c: Config) returns (tr: seq<nat>, d: Config, j: nat)
    requires ContextOk(env, x) && i < |x.items| && At(env, x, i, c)
    ensures Ran(env, c, tr, d, x.live, x.calls, ItemWeightAt(env, x, i)) && Onward(env, x, i, d, j)
    decreases x.calls, x.items, 0, |x.items| - i, 1
  {
    j := i + 1;
    match x.items[i]
    case Leaf(w) =>
      ItemOk(env, x, i);
      d := LeafStep(env.prog, env.io, c, x.live);
      tr := [c.s.pc];
      RanOne(env, c, d, x.live, x.calls);
    case Branch(_, _, _) => tr, d, j := RunBranch(env, x, i, c);
    case Call => tr, d := RunCall(env, x, i, c);
    case Loop(_, _, _) => tr, d := RunLoop(env, x, i, c);
  }

  /** Going on at a later item costs no more than what is left after this one. */
  lemma WeightOnward(env: Env, x: Context, i: nat, j: nat)
    requires i < j <= |x.items|
    ensures ItemWeightAt(env, x, i) + WeightAt(env, x, j) <= WeightAt(env, x, i)
  {
    WeightShrinks(x.items, i + 1, j, x.base, env.wt, CallWeightIn(env, x));
  }

  /** From any item, under any pins, the machine leaves the sequence: at its end
      (which is where `continue` leads) or, inside a loop, by `break`. */
  lemma {:induction false} RunSequence(env: Env, x: Context, i: nat, c: Config) returns (tr: seq<nat>, d: Config)
    requires ContextOk(env, x) && i <= |x.items| && At(env, x, i, c)
    ensures Ran(env, c, tr, d, x.live, x.calls, WeightAt(env, x, i)) && Left(x, d)
    decreases x.calls, x.items, 0, |x.items| - i, 2
  {
    hide ContextOk, Advance, PlacedAt, WellFormedAt, Start, Frame;
    if i == |x.items| {
      tr, d := [], c;
      StayPut(env, c, x.live, x.calls);
    } else {
      var tr1, c1, j := RunItem(env, x, i, c);
      hide ItemWeightAt, WeightAt, Moved, Path;
      if j <= |x.items| {
        var tr2, d2 := RunSequence(env, x, j, c1);
        tr, d := tr1 + tr2, d2;
        WeightOnward(env, x, i, j);
        RanThen(env, c, tr1, c1, tr2, d2, x.live, x.calls, ItemWeightAt(env, x, i), WeightAt(env, x, j));
        RanWeaken(env, c, tr, d, x.live, x.calls, ItemWeightAt(env, x, i) + WeightAt(env, x, j), x.live,
          WeightAt(env, x, i));
      } else {
        tr, d := tr1, c1;
        WeightOnward(env, x, i, i + 1);
        RanWeaken(env, c, tr, d, x.live, x.calls, ItemWeightAt(env, x, i), x.live, WeightAt(env, x, i));
      }
    }
  }

  lemma StayPut(env: Env, c: Config, live: set<nat>, calls: bool)
    requires Live(c)
    ensures Ran(env, c, [], c, live, calls, 0)
  {
  }

  lemma HaltStep(prog: Program, io: Stimulus, c: Config) returns (d: Config)
    requires Live(c) && Decode(Fetch(prog, c.s.pc)) == Halt
    ensures Valid(d.s) && Path(prog, io, c, [c.s.pc], d)
    ensures d.s.halted && d.s.callRetMisuse == c.s.callRetMisuse && d.s.illegalOp == c.s.illegalOp && d.t == c.t + 3
  {
    d := After(c, Advance(prog, io, c));
    OneStep(prog, io, c, d);
  }

  /** From reset, a placed sequence followed by HALT reaches HALT with no misuse
      of CALL and RET, within its static weight. */
  lemma RunToHalt(env: Env, x: Context, t0: nat) returns (tr: seq<nat>, d: Config)
    requires ContextOk(env, x) && x.base == 0 && !x.inLoop
    requires Decode(Fetch(env.prog, End(x))) == Halt
    ensures Path(env.prog, env.io, Config(Reset(), t0), tr, d) && Valid(d.s)
    ensures d.s.halted && !d.s.callRetMisuse
    ensures Total(env.wt, tr) <= WeightAt(env, x, 0) + env.wt(End(x))
  {
    var c := Config(Reset(), t0);
    var tr1, c1 := RunSequence(env, x, 0, c);
    d := HaltStep(env.prog, env.io, c1);
    tr := tr1 + [c1.s.pc];
    PathAppend(env.prog, env.io, c, tr1, c1, [c1.s.pc], d);
    TotalAppend(env.wt, tr1, [c1.s.pc]);
    TotalOne(env.wt, c1.s.pc);
  }
}
