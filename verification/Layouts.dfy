/** Whole programs of structured code: main part, HALT, and one leaf-only subroutine;
    and what rewriting their leaf words in place leaves intact. */
module Layouts {
  import opened Bits
  import opened Isa
  import opened Machine
  import opened Runs
  import opened Structured

  datatype Layout = Layout(items: seq<Item>, sub: seq<Item>, calls: bool)

  function HaltAt(l: Layout): nat {
    SeqSize(l.items)
  }

  function SubAt(l: Layout): nat {
    HaltAt(l) + 1
  }

  function RetAt(l: Layout): nat {
    SubAt(l) + SeqSize(l.sub)
  }

  /** The number of words. */
  function Length(l: Layout): nat {
    if l.calls then RetAt(l) + 1 else HaltAt(l) + 1
  }

  predicate LayoutOk(l: Layout) {
    && RetAt(l) < 511
    && WellFormed(l.items, {}, false, l.calls, {})
    && WellFormed(l.sub, {}, false, false, {})
    && (!l.calls ==> l.sub == [])
  }

  predicate Laid(l: Layout, prog: Program) {
    && Placed(prog, l.items, 0, HaltAt(l), HaltAt(l), SubAt(l))
    && Decode(Fetch(prog, HaltAt(l))) == Halt
    && (l.calls ==>
          && Placed(prog, l.sub, SubAt(l), RetAt(l), RetAt(l), SubAt(l))
          && Decode(Fetch(prog, RetAt(l))) == Ret)
  }

  function EnvOf(l: Layout, prog: Program, io: Stimulus, wt: nat -> nat): Env {
    Env(prog, io, wt, SubAt(l), l.sub, {})
  }

  function CallPart(l: Layout, wt: nat -> nat): nat {
    if l.calls then WeightFrom(l.sub, 0, SubAt(l), wt, 0) + wt(RetAt(l)) else 0
  }

  /** The static weight of the whole program. */
  function LayoutWeight(l: Layout, wt: nat -> nat): nat {
    WeightFrom(l.items, 0, 0, wt, CallPart(l, wt)) + wt(HaltAt(l))
  }

  /** For all pin activity: from reset the program reaches HALT without misusing CALL and
      RET, and no weighting of addresses adds up to more than its static sum. */
  lemma LayoutHalts(l: Layout, prog: Program, io: Stimulus, wt: nat -> nat, t0: nat) returns (tr: seq<nat>, d: Config)
    requires LayoutOk(l) && Laid(l, prog)
    ensures Path(prog, io, Config(Reset(), t0), tr, d) && Valid(d.s) && d.s.halted && !d.s.callRetMisuse
    ensures Total(wt, tr) <= LayoutWeight(l, wt)
  {
    var env := EnvOf(l, prog, io, wt);
    var x := Context(l.items, 0, HaltAt(l), {}, false, l.calls);
    assert ContextOk(env, x) by {
      hide Placed, PlacedAt, WellFormed, WellFormedAt;
    }
    assert WeightAt(env, x, 0) + wt(End(x)) == LayoutWeight(l, wt) by {
      hide WeightFrom;
    }
    hide LayoutOk, Laid, ContextOk, LayoutWeight, WeightAt;
    tr, d := RunToHalt(env, x, t0);
  }

  // ------------------------------------------------------------ what can be at an address

  predicate StructuralWord(w: Word) {
    var i := Decode(w);
    i.Branch? || i.Loop?
  }

  /** The address after some LOOP's target word holds that LOOP's counter seed. */
  ghost predicate SeedsLoop(prog: Program, a: nat, limit: nat) {
    exists lp: nat, reg: nat :: LoopsTo(prog, lp, a, limit, reg)
  }

  predicate LoopsTo(prog: Program, lp: nat, a: nat, limit: nat, reg: nat) {
    lp < limit && Decode(Fetch(prog, lp)) == Instr.Loop(a + 1, reg)
  }

  /** A word that falls through and is not a loop's counter seed. */
  ghost predicate Replaceable(prog: Program, a: nat, limit: nat) {
    LeafWord(Fetch(prog, a)) && !SeedsLoop(prog, a, limit)
  }

  /** A word that falls through and writes no register. */
  predicate Harmless(w: Word) {
    LeafWord(w) && !Writes(Decode(w))
  }

  /** `next` differs from `prog` only in replaceable words, and there by harmless ones. */
  ghost predicate Rewrites(prog: Program, next: Program, limit: nat) {
    forall a: nat :: RewrittenAt(prog, next, limit, a)
  }

  ghost predicate RewrittenAt(prog: Program, next: Program, limit: nat, a: nat) {
    Fetch(next, a) == Fetch(prog, a) || (Replaceable(prog, a, limit) && Harmless(Fetch(next, a)))
  }

  // ------------------------------------------------------------ the structure of a rewritten program

  function ReadSpan(prog: Program, a: nat, n: nat): (ws: seq<Word>)
    ensures |ws| == n && forall k :: 0 <= k < n ==> ws[k] == Fetch(prog, a + k)
  {
    if n == 0 then [] else ReadSpan(prog, a, n - 1) + [Fetch(prog, a + n - 1)]
  }

  /** The rewriting rule looks for loops below `limit`; beyond it there are none. */
  predicate LoopsBelow(items: seq<Item>, base: nat, limit: nat) {
    base + SeqSize(items) <= limit || forall i :: 0 <= i < |items| ==> !items[i].Loop?
  }

  /** The item with its leaf words as `prog` now has them. */
  function Reread(it: Item, a: nat, prog: Program): (r: Item)
    decreases it, 0
  {
    match it
    case Leaf(_) => Leaf(Fetch(prog, a))
    case Branch(pre, cond, target) => Item.Branch(ReadSpan(prog, a, |pre|), cond, target)
    case Call => Call
    case Loop(reg, count, body) => Item.Loop(reg, count, RereadTo(body, |body|, a + 1, prog))
  }

  function RereadTo(items: seq<Item>, n: nat, base: nat, prog: Program): (r: seq<Item>)
    requires n <= |items|
    ensures |r| == n
    decreases items, n
  {
    if n == 0 then []
    else RereadTo(items, n - 1, base, prog) + [Reread(items[n - 1], base + Start(items, n - 1), prog)]
  }

  function RereadAll(items: seq<Item>, base: nat, prog: Program): (r: seq<Item>)
    ensures |r| == |items|
  {
    RereadTo(items, |items|, base, prog)
  }

  lemma {:induction false} RereadAt(items: seq<Item>, n: nat, base: nat, prog: Program, i: nat)
    requires i < n <= |items|
    ensures RereadTo(items, n, base, prog)[i] == Reread(items[i], base + Start(items, i), prog)
    decreases n
  {
    if i < n - 1 {
      RereadAt(items, n - 1, base, prog, i);
    }
  }

  /** Rereading keeps every size. */
  lemma {:induction false} RereadSize(it: Item, a: nat, prog: Program)
    ensures ItemSize(Reread(it, a, prog)) == ItemSize(it)
    decreases it, 0
  {
    if it.Loop? {
      RereadStart(it.body, |it.body|, |it.body|, a + 1, prog);
    }
  }

  lemma {:induction false} RereadStart(items: seq<Item>, n: nat, i: nat, base: nat, prog: Program)
    requires i <= n <= |items|
    ensures Start(RereadTo(items, n, base, prog), i) == Start(items, i)
    decreases items, 1, i
  {
    if i > 0 {
      RereadStart(items, n, i - 1, base, prog);
      RereadAt(items, n, base, prog, i - 1);
      RereadSize(items[i - 1], base + Start(items, i - 1), prog);
    }
  }

  /** A rewritten word is still safe among the same live counters. */
  lemma StillSafe(prog: Program, next: Program, limit: nat, a: nat, live: set<nat>)
    requires RewrittenAt(prog, next, limit, a) && SafeLeaf(Fetch(prog, a), live)
    ensures SafeLeaf(Fetch(next, a), live)
  {
  }

  /** Structure words cannot be rewritten. */
  lemma StructureStays(prog: Program, next: Program, limit: nat, a: nat)
    requires RewrittenAt(prog, next, limit, a) && (StructuralWord(Fetch(prog, a)) || SeedsLoop(prog, a, limit))
    ensures Fetch(next, a) == Fetch(prog, a)
  {
  }

  lemma CallStays(prog: Program, next: Program, limit: nat, a: nat, sub: nat)
    requires RewrittenAt(prog, next, limit, a) && Decode(Fetch(prog, a)) == Instr.Branch(COND_CALL, sub)
    ensures Decode(Fetch(next, a)) == Instr.Branch(COND_CALL, sub)
  {
    StructureStays(prog, next, limit, a);
  }

  lemma {:induction false} RewrittenItem(prog: Program, next: Program, limit: nat, items: seq<Item>, i: nat,
                                         base: nat, cont: nat, brk: nat, sub: nat,
                                         live: set<nat>, inLoop: bool, calls: bool, kept: set<nat>)
    requires Rewrites(prog, next, limit) && i < |items| && LoopsBelow(items, base, limit)
    requires WellFormedAt(items, i, live, inLoop, calls, kept) && PlacedAt(prog, items, i, base, cont, brk, sub)
    ensures var r := RereadAll(items, base, next);
            WellFormedAt(r, i, live, inLoop, calls, kept) && PlacedAt(next, r, i, base, cont, brk, sub)
    decreases items, 0
  {
    hide LeafWord, WellFormed, Placed, Harmless, SafeLeaf, StructuralWord, Decode;
    var r, a, it := RereadAll(items, base, next), base + Start(items, i), items[i];
    RereadAt(items, |items|, base, next, i);
    RereadStart(items, |items|, i, base, next);
    assert RewrittenAt(prog, next, limit, a);
    match it
    case Leaf(w) => StillSafe(prog, next, limit, a, live);
    case Branch(pre, cond, target) =>
      RewrittenBranch(prog, next, limit, items, i, base, cont, brk, sub, live);
    case Call => CallStays(prog, next, limit, a, sub);
    case Loop(reg, count, body) =>
      StartMonotone(items, i + 1, |items|);
      RewrittenLoop(prog, next, limit, it, a, sub, live, calls, kept);
  }

  lemma RewrittenBranch(prog: Program, next: Program, limit: nat, items: seq<Item>, i: nat, base: nat, cont: nat,
                        brk: nat, sub: nat, live: set<nat>)
    requires Rewrites(prog, next, limit) && i < |items| && items[i].Branch?
    requires PlacedAt(prog, items, i, base, cont, brk, sub)
    requires forall k :: 0 <= k < |items[i].pre| ==> SafeLeaf(items[i].pre[k], live)
    ensures var a, n := base + Start(items, i), |items[i].pre|;
            && Fetch(next, a + n) == Fetch(prog, a + n)
            && forall k :: 0 <= k < n ==> SafeLeaf(ReadSpan(next, a, n)[k], live)
    ensures items[i].target.Sibling? && items[i].target.index <= |items| ==>
              Start(RereadAll(items, base, next), items[i].target.index) == Start(items, items[i].target.index)
  {
    var a, n := base + Start(items, i), |items[i].pre|;
    assert RewrittenAt(prog, next, limit, a + n);
    StructureStays(prog, next, limit, a + n);
    forall k | 0 <= k < n ensures SafeLeaf(ReadSpan(next, a, n)[k], live) {
      assert RewrittenAt(prog, next, limit, a + k);
      assert Fetch(prog, a + k) == items[i].pre[k];
      StillSafe(prog, next, limit, a + k, live);
    }
    if items[i].target.Sibling? && items[i].target.index <= |items| {
      RereadStart(items, |items|, items[i].target.index, base, next);
    }
  }

  lemma {:induction false} RewrittenLoop(prog: Program, next: Program, limit: nat, it: Item, a: nat, sub: nat,
                                         live: set<nat>, calls: bool, kept: set<nat>)
    requires it.Loop? && Rewrites(prog, next, limit) && a + ItemSize(it) <= limit
    requires WellFormed(it.body, live + {it.reg}, true, calls, kept)
    requires var lp := a + 1 + SeqSize(it.body);
             && Decode(Fetch(prog, a)) == Ldi(it.reg, it.count)
             && Placed(prog, it.body, a + 1, lp, lp + 1, sub)
             && Decode(Fetch(prog, lp)) == Instr.Loop(a + 1, it.reg)
    ensures var lp, body := a + 1 + SeqSize(it.body), RereadAll(it.body, a + 1, next);
            && SeqSize(body) == SeqSize(it.body)
            && WellFormed(body, live + {it.reg}, true, calls, kept)
            && Decode(Fetch(next, a)) == Ldi(it.reg, it.count)
            && Placed(next, body, a + 1, lp, lp + 1, sub)
            && Decode(Fetch(next, lp)) == Instr.Loop(a + 1, it.reg)
    decreases it.body, 2
  {
    var lp := a + 1 + SeqSize(it.body);
    assert LoopsTo(prog, lp, a, limit, it.reg);
    assert RewrittenAt(prog, next, limit, a) && RewrittenAt(prog, next, limit, lp);
    StructureStays(prog, next, limit, a);
    StructureStays(prog, next, limit, lp);
    RereadStart(it.body, |it.body|, |it.body|, a + 1, next);
    RewrittenSequence(prog, next, limit, it.body, a + 1, lp, lp + 1, sub, live + {it.reg}, true, calls, kept);
  }

  /** Rewriting keeps a placed, well-formed sequence placed and well-formed. */
  lemma {:induction false} RewrittenSequence(prog: Program, next: Program, limit: nat, items: seq<Item>, base: nat,
                                             cont: nat, brk: nat, sub: nat,
                                             live: set<nat>, inLoop: bool, calls: bool, kept: set<nat>)
    requires Rewrites(prog, next, limit) && LoopsBelow(items, base, limit)
    requires WellFormed(items, live, inLoop, calls, kept) && Placed(prog, items, base, cont, brk, sub)
    ensures var r := RereadAll(items, base, next);
            WellFormed(r, live, inLoop, calls, kept) && Placed(next, r, base, cont, brk, sub)
    decreases items, 1
  {
    var r := RereadAll(items, base, next);
    forall i | 0 <= i < |items|
      ensures WellFormedAt(r, i, live, inLoop, calls, kept) && PlacedAt(next, r, i, base, cont, brk, sub)
    {
      assert WellFormedAt(items, i, live, inLoop, calls, kept) && PlacedAt(prog, items, i, base, cont, brk, sub);
      RewrittenItem(prog, next, limit, items, i, base, cont, brk, sub, live, inLoop, calls, kept);
    }
    assert WellFormed(r, live, inLoop, calls, kept);
    assert Placed(next, r, base, cont, brk, sub);
  }

  /** The subroutine has no loops. */
  predicate LeafOnly(items: seq<Item>) {
    forall i :: 0 <= i < |items| ==> items[i].Leaf?
  }

  function Rewritten(l: Layout, next: Program): (r: Layout)
    ensures r.calls == l.calls
  {
    Layout(RereadAll(l.items, 0, next), RereadAll(l.sub, SubAt(l), next), l.calls)
  }

  /** A rewritten program has the structure of the original: the same addresses, the same
      branches, loops and calls. So everything proved of laid-out programs holds of it. */
  lemma RewrittenLaid(l: Layout, prog: Program, next: Program)
    requires LayoutOk(l) && Laid(l, prog) && LeafOnly(l.sub) && Rewrites(prog, next, HaltAt(l))
    ensures var r := Rewritten(l, next);
            && LayoutOk(r) && Laid(r, next) && LeafOnly(r.sub)
            && HaltAt(r) == HaltAt(l) && RetAt(r) == RetAt(l) && Length(r) == Length(l)
  {
    var r := Rewritten(l, next);
    RereadStart(l.items, |l.items|, |l.items|, 0, next);
    RereadStart(l.sub, |l.sub|, |l.sub|, SubAt(l), next);
    RewrittenSequence(prog, next, HaltAt(l), l.items, 0, HaltAt(l), HaltAt(l), SubAt(l), {}, false, l.calls, {});
    assert RewrittenAt(prog, next, HaltAt(l), HaltAt(l)) && RewrittenAt(prog, next, HaltAt(l), RetAt(l));
    if l.calls {
      RewrittenSequence(prog, next, HaltAt(l), l.sub, SubAt(l), RetAt(l), RetAt(l), SubAt(l), {}, false, false, {});
    }
    forall i | 0 <= i < |r.sub| ensures r.sub[i].Leaf? {
      RereadAt(l.sub, |l.sub|, SubAt(l), next, i);
    }
  }

  // ------------------------------------------------------------ flat loops

  /** Loops hold neither loops nor calls. */
  predicate FlatLoops(items: seq<Item>) {
    forall i :: 0 <= i < |items| && items[i].Loop? ==> NoLoops(items[i].body) && items[i].count >= 1
  }

  predicate NoLoops(items: seq<Item>) {
    forall i :: 0 <= i < |items| ==> items[i].Leaf? || items[i].Branch?
  }

  // ------------------------------------------------------------ kinds of words

  /** A word that falls through, calls, or branches or loops to an address up to `limit`. */
  predicate Inside(w: Word, limit: nat) {
    var i := Decode(w);
    LeafWord(w) || IsCall(i) || ((i.Branch? || i.Loop?) && i.addr <= limit)
  }

  /** So is every word inside a sequence that ends, continues and breaks up to there: in
      particular never HALT or RET. */
  lemma {:induction false} WordsInside(prog: Program, items: seq<Item>, base: nat, cont: nat, brk: nat, sub: nat,
                                       live: set<nat>, inLoop: bool, calls: bool, kept: set<nat>, limit: nat, n: nat,
                                       a: nat)
    requires n <= |items| && WellFormed(items, live, inLoop, calls, kept) && Placed(prog, items, base, cont, brk, sub)
    requires base + SeqSize(items) <= limit && cont <= limit && brk <= limit
    requires base <= a < base + Start(items, n)
    ensures Inside(Fetch(prog, a), limit)
    decreases items, 1, n
  {
    if a < base + Start(items, n - 1) {
      hide *;
      WordsInside(prog, items, base, cont, brk, sub, live, inLoop, calls, kept, limit, n - 1, a);
    } else {
      assert PlacedAt(prog, items, n - 1, base, cont, brk, sub)
             && WellFormedAt(items, n - 1, live, inLoop, calls, kept);
      hide Placed, WellFormed, PlacedAt, WellFormedAt, Inside, ItemSize;
      ItemInside(prog, items, base, cont, brk, sub, live, inLoop, calls, kept, limit, n - 1, a);
    }
  }

  lemma {:induction false} ItemInside(prog: Program, items: seq<Item>, base: nat, cont: nat, brk: nat, sub: nat,
                                      live: set<nat>, inLoop: bool, calls: bool, kept: set<nat>, limit: nat, i: nat,
                                      a: nat)
    requires i < |items| && WellFormedAt(items, i, live, inLoop, calls, kept)
    requires PlacedAt(prog, items, i, base, cont, brk, sub)
    requires base + SeqSize(items) <= limit && cont <= limit && brk <= limit
    requires var b := base + Start(items, i); b <= a < b + ItemSize(items[i])
    ensures Inside(Fetch(prog, a), limit)
    decreases items, 0, 0
  {
    hide Placed, WellFormed, Inside, Decode, SafeLeaf;
    var it, b := items[i], base + Start(items, i);
    StartMonotone(items, i + 1, |items|);
    if it.Branch? {
      BranchInside(prog, items, base, i, cont, brk, live, inLoop, limit, a);
    } else if it.Loop? {
      var lp := b + 1 + SeqSize(it.body);
      if a == b {
        SeedInside(prog, a, it.reg, it.count, limit);
      } else if a < lp {
        WordsInside(prog, it.body, b + 1, lp, lp + 1, sub, live + {it.reg}, true, calls, kept, limit, |it.body|, a);
      } else {
        LoopInside(prog, lp, b + 1, it.reg, limit);
      }
    } else {
      SimpleInside(prog, b, it, live, sub, limit);
    }
  }

  lemma SeedInside(prog: Program, a: nat, reg: nat, count: nat, limit: nat)
    requires Decode(Fetch(prog, a)) == Ldi(reg, count)
    ensures Inside(Fetch(prog, a), limit)
  {
  }

  lemma LoopInside(prog: Program, lp: nat, target: nat, reg: nat, limit: nat)
    requires Decode(Fetch(prog, lp)) == Instr.Loop(target, reg) && target <= limit
    ensures Inside(Fetch(prog, lp), limit)
  {
  }

  lemma SimpleInside(prog: Program, b: nat, it: Item, live: set<nat>, sub: nat, limit: nat)
    requires it.Leaf? ==> SafeLeaf(it.word, live) && Fetch(prog, b) == it.word
    requires it.Call? ==> Decode(Fetch(prog, b)) == Instr.Branch(COND_CALL, sub)
    ensures it.Leaf? || it.Call? ==> Inside(Fetch(prog, b), limit)
  {
    hide Decode, LeafWord;
  }

  lemma BranchInside(prog: Program, items: seq<Item>, base: nat, i: nat, cont: nat, brk: nat,
                     live: set<nat>, inLoop: bool, limit: nat, a: nat)
    requires i < |items| && items[i].Branch? && base + SeqSize(items) <= limit && cont <= limit && brk <= limit
    requires var it, b := items[i], base + Start(items, i);
             && b <= a < b + |it.pre| + 1
             && (forall k :: 0 <= k < |it.pre| ==> Fetch(prog, b + k) == it.pre[k])
             && (forall k :: 0 <= k < |it.pre| ==> SafeLeaf(it.pre[k], live))
             && GoodTarget(it.target, i, |items|, inLoop)
             && Decode(Fetch(prog, b + |it.pre|)) ==
                Instr.Branch(it.cond, TargetAddress(items, base, it.target, cont, brk))
    ensures Inside(Fetch(prog, a), limit)
  {
    var it, b := items[i], base + Start(items, i);
    hide Decode, LeafWord;
    if a < b + |it.pre| {
      assert Fetch(prog, b + (a - b)) == it.pre[a - b] && SafeLeaf(it.pre[a - b], live);
    } else if it.target.Sibling? {
      StartMonotone(items, it.target.index, |items|);
    }
  }

  predicate Kind(prog: Program, a: nat) {
    LeafWord(Fetch(prog, a)) || StructuralWord(Fetch(prog, a))
  }

  lemma KindOf(prog: Program, a: nat, limit: nat)
    requires Inside(Fetch(prog, a), limit)
    ensures Kind(prog, a) && Decode(Fetch(prog, a)) != Halt
  {
    hide Decode;
  }

  /** The first HALT word is the one the layout ends its main part with. */
  lemma HaltIsFirst(l: Layout, prog: Program, a: nat)
    requires LayoutOk(l) && Laid(l, prog) && a < HaltAt(l)
    ensures Kind(prog, a) && Decode(Fetch(prog, a)) != Halt
  {
    hide LeafWord, StructuralWord, Inside;
    WordsInside(prog, l.items, 0, HaltAt(l), HaltAt(l), SubAt(l), {}, false, l.calls, {}, HaltAt(l), |l.items|, a);
    KindOf(prog, a, HaltAt(l));
  }

  /** A word after HALT falls through, until RET. */
  lemma SubKinds(l: Layout, prog: Program, a: nat)
    requires LayoutOk(l) && Laid(l, prog) && l.calls && SubAt(l) <= a < RetAt(l)
    ensures Kind(prog, a)
  {
    hide LeafWord, StructuralWord, Inside;
    WordsInside(prog, l.sub, SubAt(l), RetAt(l), RetAt(l), SubAt(l), {}, false, false, {}, RetAt(l), |l.sub|, a);
    KindOf(prog, a, RetAt(l));
  }

  // ------------------------------------------------------------ finding HALT

  predicate IsHalt(w: Word) { Opcode(w) == OP_HALT }

  method FindHalt(words: Program) returns (halt: nat)
    requires exists a :: 0 <= a < |words| && IsHalt(words[a])
    ensures halt < |words| && IsHalt(words[halt]) && forall a :: 0 <= a < halt ==> !IsHalt(words[a])
  {
    halt := 0;
    while !IsHalt(words[halt])
      invariant halt < |words| && forall a :: 0 <= a < halt ==> !IsHalt(words[a])
      decreases |words| - halt
    {
      halt := halt + 1;
      assert halt < |words| by {
        var a :| 0 <= a < |words| && IsHalt(words[a]);
        assert a >= halt;
      }
    }
  }

  /** The first HALT is the layout's. */
  lemma HaltFound(l: Layout, words: Program, halt: nat)
    requires LayoutOk(l) && Laid(l, words) && Length(l) == |words|
    requires halt < |words| && IsHalt(words[halt]) && forall a :: 0 <= a < halt ==> !IsHalt(words[a])
    ensures halt == HaltAt(l)
  {
    var h := HaltAt(l);
    assert Fetch(words, h) == words[h];
    HaltOpcode(words[h]);
    HaltOpcode(words[halt]);
    if halt < h {
      HaltIsFirst(l, words, halt);
      assert false;
    }
  }

  lemma HaltOpcode(w: Word)
    ensures IsHalt(w) <==> Decode(w) == Halt
  {
  }

  lemma HasHalt(l: Layout, words: Program)
    requires LayoutOk(l) && Laid(l, words) && Length(l) == |words|
    ensures exists a :: 0 <= a < |words| && IsHalt(words[a])
  {
    var h := HaltAt(l);
    HaltOpcode(words[h]);
    assert IsHalt(words[h]);
  }
}
