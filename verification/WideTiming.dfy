/** Stimulus profile with long delays: a few DELAY and WAIT words of a random program are
    rewritten in place to the coarse time units, within a cycle budget. */
module WideTiming {
  import opened Bits
  import opened Isa
  import opened Machine
  import opened Runs
  import opened Structured
  import opened LeafWords
  import opened Layouts
  import opened ExecBounds
  import opened Emission
  import RandomGen
  import RandomRuns

  const BASELINE_RESERVE := 6000
  const EXP2_UNIT: nat := 1024
  const EXP3_UNIT: nat := 32768
  const EXP2_MANTISSA_CAP: nat := 4
  const EXP2_TOTAL_CAP: nat := 8192
  const MAX_WIDE_DELAYS := 2
  const MAX_WIDE_WAITS := 3

  // ------------------------------------------------------------ what the wide delays cost

  /** The cycles a DELAY holds execution. */
  function HoldCycles(w: Word): nat {
    var i := Decode(w);
    if i.Delay? then i.mantissa * Unit(i.exponent) else 0
  }

  /** What one execution of the word at `a` costs, if it is a DELAY the profile put there. */
  function WideCost(words: Program, next: Program, a: nat): nat {
    if a < |words| && a < |next| && next[a] != words[a] then HoldCycles(next[a]) else 0
  }

  function WideCosts(words: Program, next: Program): nat -> nat {
    a => WideCost(words, next, a)
  }

  /** What the wide delays below `n` can cost in all, by the static execution counts. */
  function Charge(words: Program, next: Program, halt: nat, n: nat): nat {
    if n == 0 then 0 else Charge(words, next, halt, n - 1) + WideCost(words, next, n - 1) * Bound(words, halt, n - 1)
  }

  /** What they did cost, address by address. */
  function CostByVisits(words: Program, next: Program, tr: seq<nat>, n: nat): nat {
    if n == 0 then 0 else CostByVisits(words, next, tr, n - 1) + WideCost(words, next, n - 1) * Visits(tr, n - 1)
  }

  /** Summed along the run or over the addresses, it is the same. */
  lemma {:induction false} CostSum(words: Program, next: Program, tr: seq<nat>)
    ensures Total(WideCosts(words, next), tr) == CostByVisits(words, next, tr, |words|)
    decreases |tr|
  {
    if tr == [] {
      NoVisits(words, next, |words|);
    } else {
      CostSum(words, next, tr[1..]);
      OneVisit(words, next, tr, |words|);
    }
  }

  lemma {:induction false} NoVisits(words: Program, next: Program, n: nat)
    ensures CostByVisits(words, next, [], n) == 0
  {
    if n > 0 {
      NoVisits(words, next, n - 1);
    }
  }

  lemma {:induction false} OneVisit(words: Program, next: Program, tr: seq<nat>, n: nat)
    requires tr != []
    ensures CostByVisits(words, next, tr, n) ==
            (if tr[0] < n then WideCost(words, next, tr[0]) else 0) + CostByVisits(words, next, tr[1..], n)
    decreases n
  {
    hide WideCost, Visits;
    if n > 0 {
      OneVisit(words, next, tr, n - 1);
      VisitedFirst(tr, n - 1);
      Distributed(WideCost(words, next, n - 1), Visits(tr[1..], n - 1));
    }
  }

  lemma VisitedFirst(tr: seq<nat>, a: nat)
    requires tr != []
    ensures Visits(tr, a) == (if tr[0] == a then 1 + Visits(tr[1..], a) else Visits(tr[1..], a))
  {
  }

  lemma Distributed(c: nat, v: nat)
    ensures c * (1 + v) == c + c * v
  {
  }

  lemma {:induction false} ChargeCovers(words: Program, next: Program, tr: seq<nat>, halt: nat, n: nat)
    requires forall a: nat :: a < n && WideCost(words, next, a) > 0 ==> Visits(tr, a) <= Bound(words, halt, a)
    ensures CostByVisits(words, next, tr, n) <= Charge(words, next, halt, n)
    decreases n
  {
    hide WideCost, Bound, Visits;
    if n > 0 {
      ChargeCovers(words, next, tr, halt, n - 1);
      var c := WideCost(words, next, n - 1);
      if c > 0 {
        CostMono(c, Visits(tr, n - 1), Bound(words, halt, n - 1));
      }
    }
  }

  lemma CostMono(c: nat, a: nat, b: nat)
    requires a <= b
    ensures c * a <= c * b
  {
  }

  // ------------------------------------------------------------ what a rewrite keeps

  /** Words the profile may touch, before and after. */
  predicate TimingWord(w: Word) {
    var i := Decode(w);
    i.Nop? || i.Delay? || (i.Wait? && i.mantissa != 0)
  }

  predicate Retimed(words: Program, next: Program) {
    |next| == |words| && forall a :: 0 <= a < |words| ==> RetimedAt(words, next, a)
  }

  predicate RetimedAt(words: Program, next: Program, a: nat)
    requires a < |words| == |next|
  {
    next[a] == words[a] || (TimingWord(words[a]) && TimingWord(next[a]) && Kin(words[a], next[a]))
  }

  /** A DELAY comes from a DELAY or a NOP, a WAIT from a NOP or from a WAIT on the same pin
      for the same level. */
  predicate Kin(w: Word, v: Word) {
    var i, j := Decode(w), Decode(v);
    || (j.Delay? && (i.Delay? || i.Nop?))
    || (j.Wait? && (i.Nop? || (i.Wait? && i.pin == j.pin && i.level == j.level)))
  }

  lemma TimingHarmless(w: Word)
    requires TimingWord(w)
    ensures Harmless(w) && !IsLoop(w) && !IsCallWord(w) && !Decode(w).Ldi?
  {
  }

  /** The word before a loop's body is an LDI, so it is no timing word. */
  lemma {:induction false} SeedIsLdi(prog: Program, items: seq<Item>, base: nat, cont: nat, brk: nat, sub: nat,
                                     live: set<nat>, inLoop: bool, calls: bool, kept: set<nat>, n: nat, lp: nat)
    requires n <= |items| && WellFormed(items, live, inLoop, calls, kept) && Placed(prog, items, base, cont, brk, sub)
    requires base <= lp < base + Start(items, n) && Decode(Fetch(prog, lp)).Loop?
    ensures var a: int := Decode(Fetch(prog, lp)).addr; a >= 1 && Decode(Fetch(prog, a - 1)).Ldi?
    decreases items, n
  {
    hide *;
    LastItem(items, n);
    var it, b: nat := items[n - 1], base + Start(items, n - 1);
    if lp < b {
      SeedIsLdi(prog, items, base, cont, brk, sub, live, inLoop, calls, kept, n - 1, lp);
    } else if it.Loop? {
      var e := SeqSize(it.body);
      LoopInside(prog, items, n - 1, base, cont, brk, sub, live, inLoop, calls, kept);
      if b < lp < b + 1 + e {
        SeedIsLdi(prog, it.body, b + 1, b + 1 + e, b + 2 + e, sub, live + {it.reg}, true, calls, kept, |it.body|, lp);
      }
    } else {
      NoLoopAt(prog, items, n - 1, base, cont, brk, sub, live, inLoop, calls, kept, lp);
    }
  }

  lemma LastItem(items: seq<Item>, n: nat)
    requires n <= |items|
    ensures Start(items, n) == if n == 0 then 0 else Start(items, n - 1) + ItemSize(items[n - 1])
  {
  }

  /** What the placement and the rules say of one loop. */
  lemma LoopInside(prog: Program, items: seq<Item>, i: nat, base: nat, cont: nat, brk: nat, sub: nat,
                   live: set<nat>, inLoop: bool, calls: bool, kept: set<nat>)
    requires i < |items| && items[i].Loop?
    requires WellFormed(items, live, inLoop, calls, kept) && Placed(prog, items, base, cont, brk, sub)
    ensures var it, b := items[i], base + Start(items, i);
            var e := SeqSize(it.body);
            && WellFormed(it.body, live + {it.reg}, true, calls, kept)
            && Placed(prog, it.body, b + 1, b + 1 + e, b + 2 + e, sub)
            && Decode(Fetch(prog, b)).Ldi? && Decode(Fetch(prog, b + 1 + e)) == Instr.Loop(b + 1, it.reg)
            && ItemSize(it) == e + 2 && Start(it.body, |it.body|) == e
  {
    assert PlacedAt(prog, items, i, base, cont, brk, sub) && WellFormedAt(items, i, live, inLoop, calls, kept);
    hide Placed, WellFormed, Decode;
  }

  lemma NoLoopAt(prog: Program, items: seq<Item>, i: nat, base: nat, cont: nat, brk: nat, sub: nat,
                 live: set<nat>, inLoop: bool, calls: bool, kept: set<nat>, a: nat)
    requires i < |items| && !items[i].Loop?
    requires WellFormed(items, live, inLoop, calls, kept) && Placed(prog, items, base, cont, brk, sub)
    requires base + Start(items, i) <= a < base + Start(items, i) + ItemSize(items[i])
    ensures !Decode(Fetch(prog, a)).Loop?
  {
    assert PlacedAt(prog, items, i, base, cont, brk, sub) && WellFormedAt(items, i, live, inLoop, calls, kept);
    hide Placed, WellFormed, Decode, SafeLeaf;
    var it, b := items[i], base + Start(items, i);
    if it.Branch? {
      NoLoopInBranch(prog, b, it, live, a);
    } else {
      NoLoopInLeaf(prog, b, it, live, sub);
    }
  }

  lemma NoLoopInBranch(prog: Program, b: nat, it: Item, live: set<nat>, a: nat)
    requires it.Branch? && b <= a < b + |it.pre| + 1
    requires forall k :: 0 <= k < |it.pre| ==> Fetch(prog, b + k) == it.pre[k] && SafeLeaf(it.pre[k], live)
    requires Decode(Fetch(prog, b + |it.pre|)).Branch?
    ensures !Decode(Fetch(prog, a)).Loop?
  {
    if a < b + |it.pre| {
      assert Fetch(prog, b + (a - b)) == it.pre[a - b];
    }
    hide Decode;
  }

  lemma NoLoopInLeaf(prog: Program, b: nat, it: Item, live: set<nat>, sub: nat)
    requires it.Leaf? ==> SafeLeaf(it.word, live) && Fetch(prog, b) == it.word
    requires it.Call? ==> Decode(Fetch(prog, b)) == Instr.Branch(COND_CALL, sub)
    ensures it.Leaf? || it.Call? ==> !Decode(Fetch(prog, b)).Loop?
  {
    hide Decode;
  }

  lemma RetimedRewrites(l: Layout, words: Program, next: Program)
    requires LayoutOk(l) && Laid(l, words) && Length(l) == |words| && Retimed(words, next)
    ensures Rewrites(words, next, HaltAt(l))
  {
    forall a: nat ensures RewrittenAt(words, next, HaltAt(l), a) {
      if a < |words| {
        assert RetimedAt(words, next, a);
        if next[a] != words[a] {
          TimingHarmless(words[a]);
          TimingHarmless(next[a]);
          if SeedsLoop(words, a, HaltAt(l)) {
            var lp: nat, reg: nat :| LoopsTo(words, lp, a, HaltAt(l), reg);
            SeedIsLdi(words, l.items, 0, HaltAt(l), HaltAt(l), SubAt(l), {}, false, l.calls, {}, |l.items|, lp);
            assert false;
          }
        }
      }
    }
  }

  /** Retiming changes no static count. */
  lemma {:induction false} BoundSame(words: Program, next: Program, n: nat, b: nat)
    requires Retimed(words, next)
    ensures MainBound(next, n, b) == MainBound(words, n, b) && CallSites(next, n) == CallSites(words, n)
    decreases n
  {
    hide LoopCount, Retimed, Fetch, Decode, IsLoop, IsCallWord;
    if n > 0 {
      BoundSame(words, next, n - 1, b);
      StepSame(words, next, n - 1);
    }
  }

  lemma StepSame(words: Program, next: Program, a: nat)
    requires Retimed(words, next)
    ensures var v, w := Fetch(next, a), Fetch(words, a);
            && IsLoop(v) == IsLoop(w) && IsCallWord(v) == IsCallWord(w)
            && (IsLoop(w) ==> Decode(v) == Decode(w) && LoopCount(next, a) == LoopCount(words, a))
  {
    SameKind(words, next, a);
    if IsLoop(Fetch(words, a)) {
      var target: int := Decode(Fetch(words, a)).addr;
      if target >= 1 {
        SameKind(words, next, target - 1);
      }
    }
    hide Retimed, Fetch, Decode;
  }

  lemma SameKind(words: Program, next: Program, a: nat)
    requires Retimed(words, next)
    ensures Fetch(next, a) == Fetch(words, a)
            || (&& !IsLoop(Fetch(next, a)) && !IsLoop(Fetch(words, a)) && !IsCallWord(Fetch(next, a))
              && !IsCallWord(Fetch(words, a))
                && !Decode(Fetch(next, a)).Ldi? && !Decode(Fetch(words, a)).Ldi?)
  {
    if a < |words| {
      assert RetimedAt(words, next, a);
      if next[a] != words[a] {
        TimingHarmless(words[a]);
        TimingHarmless(next[a]);
      }
    }
  }

  // ------------------------------------------------------------ the profile

  /** What holds of a retimed program: only timing words changed, and all DELAYs among the
      changed words together cost at most the budget by the static counts. */
  predicate Within(words: Program, next: Program, halt: nat, budget: nat) {
    Retimed(words, next) && Charge(words, next, halt, |words|) <= budget
  }

  predicate Distinct(s: seq<nat>) {
    forall i, j :: 0 <= i < j < |s| ==> s[i] != s[j]
  }

  predicate Among(s: seq<nat>, words: Program) {
    forall k :: 0 <= k < |s| ==> s[k] < |words| && TimingWord(words[s[k]])
  }

  /** An arbitrary order: `rng.shuffle`, and the sort that prefers straight-line code. */
  method Reorder(s: seq<nat>) returns (r: seq<nat>)
    requires Distinct(s)
    ensures |r| == |s| && Distinct(r) && forall x :: x in r <==> x in s
  {
    r := s;
    for i := 0 to |s|
      invariant |r| == |s| && Distinct(r) && forall x :: x in r <==> x in s
    {
      var j := RandInt(i, |s| - 1);
      Swapped(r, i, j);
      r := r[i := r[j]][j := r[i]];
    }
  }

  lemma Swapped(r: seq<nat>, i: nat, j: nat)
    requires i < |r| && j < |r| && Distinct(r)
    ensures var q := r[i := r[j]][j := r[i]]; Distinct(q) && forall x :: x in q <==> x in r
  {
    var q := r[i := r[j]][j := r[i]];
    forall x | x in r ensures x in q {
      var k :| 0 <= k < |r| && r[k] == x;
      assert q[if k == i then j else if k == j then i else k] == x;
    }
  }

  /** The addresses of words of one kind that the static count allows. */
  method Find(words: Program, op: nat, mult: seq<nat>, limit: nat, once: bool) returns (pcs: seq<nat>)
    requires |mult| == |words| && limit <= |words|
    ensures Distinct(pcs)
    ensures forall a: nat :: a in pcs <==>
              a < limit && Opcode(words[a]) == op && (if once then mult[a] == 1 else mult[a] > 0)
  {
    pcs := [];
    for a := 0 to limit
      invariant Distinct(pcs)
      invariant forall x: nat :: x in pcs <==>
                  x < a && Opcode(words[x]) == op && (if once then mult[x] == 1 else mult[x] > 0)
    {
      if Opcode(words[a]) == op && (if once then mult[a] == 1 else mult[a] > 0) {
        pcs := pcs + [a];
      }
    }
  }

  lemma EncodedDelay(m: nat, e: nat)
    requires m < 512 && e < 4
    ensures Decode(Encode(Delay(m, e))) == Delay(m, e) && TimingWord(Encode(Delay(m, e)))
  {
    DecodeEncode(Delay(m, e));
    hide Decode, Encode;
  }

  lemma EncodedWait(pin: nat, level: nat, m: nat, e: nat)
    requires pin < 8 && level < 2 && 1 <= m < 32 && e < 4
    ensures Decode(Encode(Wait(pin, level, m, e))) == Wait(pin, level, m, e)
    ensures TimingWord(Encode(Wait(pin, level, m, e)))
  {
    DecodeEncode(Wait(pin, level, m, e));
    hide Decode, Encode;
  }

  /** A word that is no DELAY costs nothing where it is put. */
  lemma {:induction false} ChargeFalls(words: Program, next: Program, halt: nat, pc: nat, w: Word, n: nat)
    requires pc < |next| && HoldCycles(w) == 0
    ensures Charge(words, next[pc := w], halt, n) <= Charge(words, next, halt, n)
    decreases n
  {
    hide HoldCycles, Bound;
    if n > 0 {
      ChargeFalls(words, next, halt, pc, w, n - 1);
    }
  }

  /** A DELAY put in an untouched place adds its cycles times the static count. */
  lemma {:induction false} ChargeGrows(words: Program, next: Program, halt: nat, pc: nat, w: Word, n: nat)
    requires pc < |next| == |words| && next[pc] == words[pc]
    ensures Charge(words, next[pc := w], halt, n) <= Charge(words, next, halt, n)
            + (if pc < n then HoldCycles(w) * Bound(words, halt, pc) else 0)
    decreases n
  {
    hide HoldCycles, Bound;
    if n > 0 {
      ChargeGrows(words, next, halt, pc, w, n - 1);
    }
  }

  lemma RetimedOne(words: Program, next: Program, pc: nat, w: Word)
    requires Retimed(words, next) && pc < |words| && TimingWord(words[pc]) && TimingWord(w) && Kin(words[pc], w)
    ensures Retimed(words, next[pc := w])
  {
    hide TimingWord, Kin;
    var after := next[pc := w];
    forall a | 0 <= a < |words| ensures RetimedAt(words, after, a) {
      assert RetimedAt(words, next, a);
    }
  }

  /** A WAIT put in place of a NOP, or of a WAIT on the same pin and level. */
  lemma RetimeOne(words: Program, next: Program, halt: nat, budget: nat, pc: nat, w: Word)
    requires Within(words, next, halt, budget) && pc < |words| && TimingWord(words[pc]) && TimingWord(w)
    requires Decode(w).Wait? && Kin(words[pc], w)
    ensures Within(words, next[pc := w], halt, budget)
  {
    RetimedOne(words, next, pc, w);
    assert HoldCycles(w) == 0;
    hide Decode, Kin, TimingWord, Retimed, Charge;
    assert |next| == |words| by { LengthKept(words, next); }
    ChargeFalls(words, next, halt, pc, w, |words|);
  }

  lemma LengthKept(words: Program, next: Program)
    requires Retimed(words, next)
    ensures |next| == |words|
  {
  }

  /** One more wide delay at a place not yet touched. */
  lemma WidenOne(words: Program, next: Program, halt: nat, budget: nat, pc: nat, m: nat, e: nat)
    requires Within(words, next, halt, budget) && pc < |words| && m < 512 && e < 4 && next[pc] == words[pc]
    requires TimingWord(words[pc]) && !Decode(words[pc]).Wait?
    requires Charge(words, next, halt, |words|) + m * Unit(e) * Bound(words, halt, pc) <= budget
    ensures Within(words, next[pc := Encode(Delay(m, e))], halt, budget)
    ensures Charge(words, next[pc := Encode(Delay(m, e))], halt, |words|)
            <= Charge(words, next, halt, |words|) + m * Unit(e) * Bound(words, halt, pc)
  {
    var w := Encode(Delay(m, e));
    EncodedDelay(m, e);
    assert HoldCycles(w) == m * Unit(e) && Kin(words[pc], w);
    LengthKept(words, next);
    hide Decode, Encode, Kin, TimingWord, Retimed, Charge, HoldCycles, Unit, Bound;
    RetimedOne(words, next, pc, w);
    ChargeGrows(words, next, halt, pc, w, |words|);
  }

  /** DELAY rewrites, each charged by how often it can run. */
  method WidenDelays(words: Program, halt: nat, mult: seq<nat>, delays: seq<nat>, budget: nat) returns (next: Program)
    requires |mult| == |words| && forall b :: 0 <= b < |words| ==> mult[b] == Bound(words, halt, b)
    requires Distinct(delays) && Among(delays, words)
    requires forall k :: 0 <= k < |delays| ==> mult[delays[k]] > 0 && !Decode(words[delays[k]]).Wait?
    ensures Within(words, next, halt, budget) && |next| == |words|
    ensures forall a :: 0 <= a < |words| && a !in delays ==> next[a] == words[a]
    ensures (exists k :: 0 <= k < |delays| && Payable(mult[delays[k]], budget)) ==>
              exists k :: 0 <= k < |delays| && WideDelay(next[delays[k]])
  {
    next := words;
    hide Charge, Bound, TimingWord, Retimed, Decode, Encode, WideDelay, Within, Payable, SomeWide, AllDear;
    NothingSpent(words, halt, |words|);
    NothingChanged(words);
    StartWithin(words, halt, budget);
    var left, start := budget, 0;
    ghost var found := false;
    if budget >= EXP3_UNIT && delays != [] && mult[delays[0]] == 1 {
      var coin := RandInt(0, 1);
      if coin == 0 {
        assert Unit(3) == EXP3_UNIT;
        WidenOne(words, next, halt, budget, delays[0], 1, 3);
        EncodedWide(1, 3);
        WideNew(next, delays, 0, Encode(Delay(1, 3)));
        next := next[delays[0] := Encode(Delay(1, 3))];
        left, start, found := budget - EXP3_UNIT, 1, true;
      }
    }
    var exp2 := if left < EXP2_TOTAL_CAP then left else EXP2_TOTAL_CAP;
    var count := RandInt(1, MAX_WIDE_DELAYS);
    ghost var first := exp2;
    NoneDear(mult, delays, first);
    for i := start to |delays|
      invariant Within(words, next, halt, budget) && Charge(words, next, halt, |words|) + exp2 <= budget && 0 <= exp2
      invariant |next| == |words|
      invariant forall k :: i <= k < |delays| ==> next[delays[k]] == words[delays[k]]
      invariant forall a :: 0 <= a < |words| && a !in delays ==> next[a] == words[a]
      invariant found ==> SomeWide(next, delays, i)
      invariant !found ==> start == 0 && exp2 == first && count >= 1 && AllDear(mult, delays, i, first)
    {
      if count == 0 {
        WideLonger(next, delays, i);
        break;
      }
      var pc := delays[i];
      var each := EXP2_UNIT * mult[pc];
      var cap := if exp2 / each < EXP2_MANTISSA_CAP then exp2 / each else EXP2_MANTISSA_CAP;
      if cap >= 1 {
        var m := RandInt(1, cap);
        Affordable(exp2, each, cap, m);
        CostIs(m, mult[pc]);
        WidenOne(words, next, halt, budget, pc, m, 2);
        EncodedWide(m, 2);
        WideNew(next, delays, i, Encode(Delay(m, 2)));
        next := next[pc := Encode(Delay(m, 2))];
        exp2 := exp2 - m * each;
        count := count - 1;
        found := true;
      } else {
        TooDear(exp2, each);
        DearNext(mult, delays, i, first, found);
        WideNext(next, delays, i, found);
      }
    }
    WidenedIf(mult, delays, next, found, first, budget);
  }

  /** One of the first `n` is wide by now. */
  ghost predicate SomeWide(next: Program, delays: seq<nat>, n: nat) {
    exists k :: 0 <= k < n && k < |delays| && delays[k] < |next| && WideDelay(next[delays[k]])
  }

  /** None of the first `n` can be paid for. */
  predicate AllDear(mult: seq<nat>, delays: seq<nat>, n: nat, first: int) {
    forall k :: 0 <= k < n && k < |delays| && delays[k] < |mult| ==> EXP2_UNIT * mult[delays[k]] > first
  }

  lemma NoneDear(mult: seq<nat>, delays: seq<nat>, first: int)
    ensures AllDear(mult, delays, 0, first)
  {
  }

  lemma DearNext(mult: seq<nat>, delays: seq<nat>, n: nat, first: int, found: bool)
    requires n < |delays| && delays[n] < |mult|
    requires !found ==> AllDear(mult, delays, n, first) && EXP2_UNIT * mult[delays[n]] > first
    ensures !found ==> AllDear(mult, delays, n + 1, first)
  {
  }

  lemma TooDear(exp2: nat, each: nat)
    requires each > 0 && exp2 / each < 1
    ensures each > exp2
  {
  }

  lemma WideNew(next: Program, delays: seq<nat>, n: nat, w: Word)
    requires n < |delays| && delays[n] < |next| && WideDelay(w)
    ensures SomeWide(next[delays[n] := w], delays, n + 1)
  {
    hide WideDelay;
    assert WideDelay(next[delays[n] := w][delays[n]]);
  }

  lemma WideNext(next: Program, delays: seq<nat>, n: nat, found: bool)
    requires found ==> SomeWide(next, delays, n)
    ensures found ==> SomeWide(next, delays, n + 1)
  {
    hide WideDelay;
  }

  lemma WideLonger(next: Program, delays: seq<nat>, n: nat)
    requires SomeWide(next, delays, n) && n <= |delays|
    ensures SomeWide(next, delays, |delays|)
  {
    hide WideDelay;
  }

  lemma WidenedIf(mult: seq<nat>, delays: seq<nat>, next: Program, found: bool, first: int, budget: nat)
    requires forall k :: 0 <= k < |delays| ==> delays[k] < |mult| == |next|
    requires found ==> SomeWide(next, delays, |delays|)
    requires !found ==> AllDear(mult, delays, |delays|, first)
                        && first == if budget < EXP2_TOTAL_CAP then budget else EXP2_TOTAL_CAP
    ensures (exists k :: 0 <= k < |delays| && Payable(mult[delays[k]], budget)) ==>
              exists k :: 0 <= k < |delays| && WideDelay(next[delays[k]])
  {
    hide WideDelay;
  }

  /** A DELAY in one of the coarse units. */
  predicate WideDelay(w: Word) {
    var i := Decode(w);
    i.Delay? && i.exponent >= 2 && i.mantissa >= 1
  }

  /** A WAIT with a long timeout. */
  predicate WideWait(w: Word) {
    var i := Decode(w);
    i.Wait? && i.exponent >= 2 && i.mantissa >= 1
  }

  /** A word run so often can be given one step of the coarse unit. */
  predicate Payable(times: nat, budget: nat) {
    1024 * times <= budget && 1024 * times <= 8192
  }

  lemma EncodedWide(m: nat, e: nat)
    requires 1 <= m < 512 && 2 <= e < 4
    ensures WideDelay(Encode(Delay(m, e)))
  {
    EncodedDelay(m, e);
    hide Encode, Decode;
  }

  lemma StartWithin(words: Program, halt: nat, budget: nat)
    requires Charge(words, words, halt, |words|) == 0 && Retimed(words, words)
    ensures Within(words, words, halt, budget)
  {
  }

  lemma {:induction false} NothingSpent(words: Program, halt: nat, n: nat)
    ensures Charge(words, words, halt, n) == 0
  {
    if n > 0 {
      NothingSpent(words, halt, n - 1);
    }
  }

  lemma NothingChanged(words: Program)
    ensures Retimed(words, words)
  {
    forall a | 0 <= a < |words| ensures RetimedAt(words, words, a) {
    }
  }

  lemma Affordable(exp2: nat, each: nat, cap: nat, m: nat)
    requires each > 0 && cap <= exp2 / each && m <= cap
    ensures m * each <= exp2
  {
    MulMono(m, exp2 / each, each);
    assert exp2 == each * (exp2 / each) + exp2 % each;
  }

  lemma CostIs(m: nat, times: nat)
    ensures m * Unit(2) * times == m * (EXP2_UNIT * times)
  {
    assert Unit(2) == EXP2_UNIT;
  }

  lemma WaitFields(w: Word)
    requires Decode(w).Wait?
    ensures PinIndex(Operands(w)) == Decode(w).pin && AuxBit(Operands(w)) == Decode(w).level
  {
  }

  /** A WAIT where there is a WAIT or, so far, a NOP. */
  predicate Waiting(words: Program, next: Program, pc: nat) {
    && pc < |words| && pc < |next| && TimingWord(words[pc]) && Decode(next[pc]).Wait?
    && Kin(words[pc], next[pc])
  }

  /** A few WAITs get long timeouts; pin and level stay. */
  method WidenWaits(words: Program, before: Program, ghost halt: nat, ghost budget: nat, waits: seq<nat>)
    returns (next: Program)
    requires Within(words, before, halt, budget)
    requires forall k :: 0 <= k < |waits| ==> Waiting(words, before, waits[k])
    ensures Within(words, next, halt, budget) && |next| == |words|
    ensures waits != [] ==> waits[0] < |next| && WideWait(next[waits[0]])
    ensures forall a :: 0 <= a < |words| && a !in waits ==> next[a] == before[a]
  {
    hide TimingWord, Charge, Retimed, Bound, Decode, Encode, Kin, Within, WideWait;
    next := before;
    WithinLength(words, next, halt, budget);
    var count := RandInt(1, MAX_WIDE_WAITS);
    for i := 0 to if count < |waits| then count else |waits|
      invariant Within(words, next, halt, budget) && |next| == |words| == |before|
      invariant forall k :: 0 <= k < |waits| ==> Waiting(words, next, waits[k])
      invariant i > 0 ==> WideWait(next[waits[0]])
      invariant forall a :: 0 <= a < |words| && a !in waits ==> next[a] == before[a]
    {
      var pc := waits[i];
      WaitFields(next[pc]);
      var pin, level := PinIndex(Operands(next[pc])), AuxBit(Operands(next[pc]));
      var m := RandInt(1, 31);
      var e := RandInt(2, 3);
      EncodedWait(pin, level, m, e);
      var w := Encode(Wait(pin, level, m, e));
      LongWait(w);
      SamePin(words[pc], next[pc], w);
      RetimeOne(words, next, halt, budget, pc, w);
      next := next[pc := w];
    }
  }

  lemma LongWait(w: Word)
    requires Decode(w).Wait? && Decode(w).exponent >= 2 && Decode(w).mantissa >= 1
    ensures WideWait(w)
  {
    hide Decode;
  }

  lemma SamePin(w: Word, v: Word, u: Word)
    requires Kin(w, v) && Decode(v).Wait? && Decode(u).Wait?
    requires Decode(u).pin == Decode(v).pin && Decode(u).level == Decode(v).level
    ensures Kin(w, u)
  {
    hide Decode;
  }

  /** Timing words by opcode. */
  lemma OpcodeTiming(w: Word)
    requires LeafWord(w) && (Opcode(w) == OP_DELAY || Opcode(w) == OP_NOP || Opcode(w) == OP_WAIT)
    ensures TimingWord(w)
  {
  }

  /** No word of a laid-out program but HALT and RET fails to be a leaf or structure. */
  lemma FoundTiming(l: Layout, words: Program, op: nat, pcs: seq<nat>)
    requires LayoutOk(l) && Laid(l, words) && Length(l) == |words| && (op == OP_DELAY || op == OP_NOP || op == OP_WAIT)
    requires forall a: nat :: a in pcs ==> a < |words| && Opcode(words[a]) == op
    ensures Among(pcs, words)
  {
    forall k | 0 <= k < |pcs| ensures pcs[k] < |words| && TimingWord(words[pcs[k]]) {
      var a := pcs[k];
      assert a in pcs;
      OpcodeOfEnds(words[a]);
      if a < HaltAt(l) {
        HaltIsFirst(l, words, a);
      } else if a != HaltAt(l) && a != RetAt(l) {
        SubKinds(l, words, a);
      }
      OpcodeTiming(words[a]);
    }
  }

  lemma OpcodeOfEnds(w: Word)
    ensures Opcode(w) == OP_DELAY || Opcode(w) == OP_NOP || Opcode(w) == OP_WAIT ==>
              !StructuralWord(w) && Decode(w) != Halt && Decode(w) != Ret
  {
  }

  function BudgetOf(maxCycles: int): nat {
    if maxCycles > BASELINE_RESERVE then maxCycles - BASELINE_RESERVE else 0
  }

  /** What the profile promises of its program: the structure of the random program it
      rewrote, only timing words changed, every opcode defined, and wide delays within the
      budget. */
  predicate Promise(words: Program, l: Layout, next: Program, budget: nat) {
    && LayoutOk(l) && Laid(l, words) && LeafOnly(l.sub) && FlatLoops(l.items) && Length(l) == |words|
    && Within(words, next, HaltAt(l), budget) && RandomGen.AllDefined(next)
  }

  lemma RetimedDefined(words: Program, next: Program)
    requires RandomGen.AllDefined(words) && Retimed(words, next)
    ensures RandomGen.AllDefined(next)
  {
    hide Kin, TimingWord, Opcode;
    forall a | 0 <= a < |next| ensures Opcode(next[a]) < 21 {
      assert RetimedAt(words, next, a);
      TimingDefined(next[a]);
    }
  }

  lemma TimingDefined(w: Word)
    ensures TimingWord(w) ==> Opcode(w) < 21
  {
  }

  ghost predicate Base(words: Program, l: Layout, halt: nat, mult: seq<nat>) {
    && LayoutOk(l) && Laid(l, words) && Length(l) == |words| && halt == HaltAt(l)
    && |mult| == |words| && forall b :: 0 <= b < |words| ==> mult[b] == Bound(words, halt, b)
  }

  /** Words of one timing opcode, in any order. */
  method Candidates(words: Program, ghost l: Layout, halt: nat, mult: seq<nat>, op: nat, limit: nat, once: bool)
    returns (pcs: seq<nat>)
    requires Base(words, l, halt, mult) && limit <= |words| && (op == OP_DELAY || op == OP_NOP || op == OP_WAIT)
    ensures Distinct(pcs) && Among(pcs, words)
    ensures forall k :: 0 <= k < |pcs| ==> pcs[k] < |words| && Opcode(words[pcs[k]]) == op && mult[pcs[k]] > 0
    ensures forall a: nat :: a in pcs <==>
              a < limit && Opcode(words[a]) == op && (if once then mult[a] == 1 else mult[a] > 0)
  {
    hide Bound, TimingWord, LayoutOk, Laid;
    var found := Find(words, op, mult, limit, once);
    pcs := Reorder(found);
    FoundTiming(l, words, op, pcs);
    forall k | 0 <= k < |pcs| ensures pcs[k] < |words| && Opcode(words[pcs[k]]) == op && mult[pcs[k]] > 0 {
      assert pcs[k] in found;
    }
  }

  lemma OpcodeWaits(w: Word)
    ensures Decode(w).Wait? <==> Opcode(w) == OP_WAIT
    ensures Decode(w).Nop? <==> Opcode(w) == OP_NOP
  {
  }

  /** The WAITs of the random program are still WAITs after the DELAY rewrites. */
  lemma StillWaiting(words: Program, next: Program, pc: nat)
    requires |next| == |words| && pc < |words| && next[pc] == words[pc] && TimingWord(words[pc])
    requires Opcode(words[pc]) == OP_WAIT
    ensures Waiting(words, next, pc)
  {
    OpcodeWaits(words[pc]);
  }

  /** WAITs, or a NOP made into one when there is none. */
  method RetimeWaits(words: Program, ghost l: Layout, halt: nat, mult: seq<nat>, before: Program, ghost budget: nat,
                     nops: seq<nat>)
    returns (next: Program)
    requires Base(words, l, halt, mult) && Within(words, before, halt, budget) && Among(nops, words)
    requires forall k :: 0 <= k < |nops| ==> Opcode(words[nops[k]]) == OP_NOP
    requires |before| == |words|
    requires forall a :: 0 <= a < |words| && Opcode(words[a]) == OP_WAIT ==> before[a] == words[a]
    ensures Within(words, next, halt, budget) && |next| == |words|
    ensures (nops != [] || exists a :: 0 <= a < |words| && Opcode(words[a]) == OP_WAIT && mult[a] > 0) ==>
              exists a :: 0 <= a < |next| && WideWait(next[a])
    ensures forall a :: 0 <= a < |words| && Opcode(words[a]) != OP_WAIT && a !in nops ==> next[a] == before[a]
  {
    hide Bound, TimingWord, Within, Charge, Decode, Encode, Opcode, WideWait;
    next := before;
    var waits := Candidates(words, l, halt, mult, OP_WAIT, |words|, false);
    forall k | 0 <= k < |waits| ensures Waiting(words, next, waits[k]) {
      StillWaiting(words, next, waits[k]);
    }
    if waits == [] && nops != [] {
      var pc := nops[|nops| - 1];
      var pin := ChoosePin();
      var level := RandInt(0, 1);
      EncodedWait(pin, level, 1, 0);
      OpcodeWaits(words[pc]);
      var w := Encode(Wait(pin, level, 1, 0));
      RetimeOne(words, next, halt, budget, pc, w);
      next := next[pc := w];
      waits := [pc];
    }
    next := WidenWaits(words, next, halt, budget, waits);
    if waits != [] {
      assert WideWait(next[waits[0]]);
    }
  }

  /** A word of this opcode that can run. */
  ghost predicate CanRun(words: Program, halt: nat, op: nat, a: nat) {
    a < |words| && Opcode(words[a]) == op && Bound(words, halt, a) > 0
  }

  /** A NOP the profile may use: in the main part, and run at most once. */
  ghost predicate Spare(words: Program, halt: nat, a: nat) {
    a < halt && a < |words| && Opcode(words[a]) == OP_NOP && Bound(words, halt, a) == 1
  }

  /** Some WAIT gets a long timeout, if there is one that can run, or a NOP that no DELAY
      takes. */
  ghost predicate WaitWidened(words: Program, halt: nat, next: Program) {
    (|| (exists a: nat :: CanRun(words, halt, OP_WAIT, a))
     || (exists a: nat, b: nat :: Spare(words, halt, a) && Spare(words, halt, b) && a != b)
     || (exists a: nat, b: nat :: Spare(words, halt, a) && CanRun(words, halt, OP_DELAY, b)))
    ==> exists a :: 0 <= a < |next| && WideWait(next[a])
  }

  /** Some DELAY gets a coarse unit, if the budget pays for it. */
  ghost predicate DelayWidened(words: Program, halt: nat, next: Program, budget: nat) {
    (|| (exists a: nat :: CanRun(words, halt, OP_DELAY, a) && Payable(Bound(words, halt, a), budget))
     || ((forall a: nat :: !CanRun(words, halt, OP_DELAY, a)) && (exists a: nat :: Spare(words, halt, a))
       && Payable(1, budget)))
    ==> exists a :: 0 <= a < |next| && WideDelay(next[a])
  }

  /** The DELAYs, charged against the budget, and then the WAITs. */
  method Rewrite(words: Program, ghost l: Layout, halt: nat, mult: seq<nat>, budget: nat) returns (next: Program)
    requires Base(words, l, halt, mult)
    ensures Within(words, next, halt, budget) && |next| == |words|
    ensures WaitWidened(words, halt, next) && DelayWidened(words, halt, next, budget)
  {
    hide LayoutOk, Laid, Within, Bound, TimingWord, Opcode, Decode;
    hide WideWait, WideDelay, Payable, CanRun, Spare, WaitWidened, DelayWidened;
    BaseSize(words, l, halt, mult);
    var nops := Candidates(words, l, halt, mult, OP_NOP, halt, true);
    var delayPcs := Candidates(words, l, halt, mult, OP_DELAY, |words|, false);
    ghost var spare, slow := nops, delayPcs;
    if delayPcs == [] && nops != [] {
      delayPcs := [nops[|nops| - 1]];
      nops := nops[..|nops| - 1];
    }
    forall k | 0 <= k < |delayPcs| ensures !Decode(words[delayPcs[k]]).Wait? {
      OpcodeWaits(words[delayPcs[k]]);
    }
    SparesLeft(words, halt, mult, spare, slow, nops);
    DelaysPicked(words, halt, mult, spare, slow, delayPcs, budget);
    var widened := WidenDelays(words, halt, mult, delayPcs, budget);
    WithinLength(words, widened, halt, budget);
    next := RetimeWaits(words, l, halt, mult, widened, budget, nops);
    DelaysStay(words, widened, next, delayPcs, nops);
    WithinLength(words, next, halt, budget);
    WaitsFound(words, halt, mult, nops, next);
    DelaysDone(words, halt, mult, delayPcs, widened, next, budget);
  }

  lemma BaseSize(words: Program, l: Layout, halt: nat, mult: seq<nat>)
    requires Base(words, l, halt, mult)
    ensures halt <= |words|
  {
    hide LayoutOk, Laid;
  }

  /** The profile's generator. */
  method GenerateProgram(maxCycles: int, delays: Caps, waits: Caps)
    returns (words: Program, ghost l: Layout, next: Program)
    requires DelayCaps(delays) && WaitCaps(waits)
    ensures Promise(words, l, next, BudgetOf(maxCycles)) && |next| == |words| <= PROGRAM_WORD_LIMIT
    ensures WaitWidened(words, HaltAt(l), next) && DelayWidened(words, HaltAt(l), next, BudgetOf(maxCycles))
  {
    hide LayoutOk, Laid, Within, Bound, LeafOnly, FlatLoops, Decode, RandomGen.AllDefined, WaitWidened, DelayWidened;
    RandomGen.DefaultFits();
    ghost var bs;
    words, l, bs := RandomGen.GenerateProgram(RandomGen.DEFAULT_SHAPE, delays, waits);
    HasHalt(l, words);
    var halt := FindHalt(words);
    HaltFound(l, words, halt);
    var mult := ComputeBounds(words, halt);
    next := Rewrite(words, l, halt, mult, BudgetOf(maxCycles));
    WithinLength(words, next, halt, BudgetOf(maxCycles));
    RetimedDefined(words, next);
  }

  /** The NOPs and the DELAYs found are all there are. */
  ghost predicate AllFound(words: Program, halt: nat, mult: seq<nat>, spare: seq<nat>, slow: seq<nat>) {
    && halt <= |words| == |mult| && (forall b :: 0 <= b < |words| ==> mult[b] == Bound(words, halt, b))
    && Distinct(spare)
    && (forall a: nat :: a in spare <==> a < halt && Opcode(words[a]) == OP_NOP && mult[a] == 1)
    && (forall a: nat :: a in slow <==> a < |words| && Opcode(words[a]) == OP_DELAY && mult[a] > 0)
  }

  lemma SparesLeft(words: Program, halt: nat, mult: seq<nat>, spare: seq<nat>, slow: seq<nat>, nops: seq<nat>)
    requires AllFound(words, halt, mult, spare, slow)
    requires nops == if slow == [] && spare != [] then spare[..|spare| - 1] else spare
    ensures (exists a: nat, b: nat :: Spare(words, halt, a) && Spare(words, halt, b) && a != b) ==> nops != []
    ensures (exists a: nat, b: nat :: Spare(words, halt, a) && CanRun(words, halt, OP_DELAY, b)) ==> nops != []
  {
    hide Bound, Opcode;
    if a: nat, b: nat :| Spare(words, halt, a) && Spare(words, halt, b) && a != b {
      assert a in spare && b in spare;
    }
    if a: nat, b: nat :| Spare(words, halt, a) && CanRun(words, halt, OP_DELAY, b) {
      assert a in spare && b in slow;
    }
  }

  lemma DelaysPicked(words: Program, halt: nat, mult: seq<nat>, spare: seq<nat>, slow: seq<nat>, picked: seq<nat>,
                     budget: nat)
    requires AllFound(words, halt, mult, spare, slow)
    requires picked == if slow == [] && spare != [] then [spare[|spare| - 1]] else slow
    ensures forall k :: 0 <= k < |picked| ==> picked[k] < |mult|
    ensures (|| (exists a: nat :: CanRun(words, halt, OP_DELAY, a) && Payable(Bound(words, halt, a), budget))
             || ((forall a: nat :: !CanRun(words, halt, OP_DELAY, a)) && (exists a: nat :: Spare(words, halt, a))
               && Payable(1, budget)))
            ==> exists k :: 0 <= k < |picked| && Payable(mult[picked[k]], budget)
  {
    hide Bound, Opcode, Payable;
    SlowRuns(words, halt, mult, spare, slow);
    forall k | 0 <= k < |picked| ensures picked[k] < |mult| {
      assert picked[k] in slow || picked[k] in spare;
    }
    if a: nat :| CanRun(words, halt, OP_DELAY, a) && Payable(Bound(words, halt, a), budget) {
      assert a in slow;
      var k :| 0 <= k < |slow| && slow[k] == a;
      assert Payable(mult[picked[k]], budget);
    }
    if (forall a: nat :: !CanRun(words, halt, OP_DELAY, a)) && (exists a: nat :: Spare(words, halt, a))
      && Payable(1, budget) {
      var a: nat :| Spare(words, halt, a);
      assert a in spare;
      assert picked[0] in spare;
      assert Payable(mult[picked[0]], budget);
    }
  }

  lemma SlowRuns(words: Program, halt: nat, mult: seq<nat>, spare: seq<nat>, slow: seq<nat>)
    requires AllFound(words, halt, mult, spare, slow)
    ensures slow != [] ==> exists a: nat :: CanRun(words, halt, OP_DELAY, a)
  {
    hide Bound, Opcode;
    if slow != [] {
      assert slow[0] in slow;
      assert CanRun(words, halt, OP_DELAY, slow[0]);
    }
  }

  /** The wide DELAYs are not among the words retimed next. */
  lemma DelaysStay(words: Program, widened: Program, next: Program, picked: seq<nat>, nops: seq<nat>)
    requires |words| == |widened| == |next| && forall k :: 0 <= k < |picked| ==> picked[k] < |words|
    requires forall k :: 0 <= k < |picked| ==> Opcode(words[picked[k]]) != OP_WAIT && picked[k] !in nops
    requires forall a :: 0 <= a < |words| && Opcode(words[a]) != OP_WAIT && a !in nops ==> next[a] == widened[a]
    ensures (exists k :: 0 <= k < |picked| && WideDelay(widened[picked[k]])) ==>
              exists a :: 0 <= a < |next| && WideDelay(next[a])
  {
    hide Opcode, WideDelay;
    if k :| 0 <= k < |picked| && WideDelay(widened[picked[k]]) {
      assert WideDelay(next[picked[k]]);
    }
  }

  /** A WAIT was there, or a NOP was made into one. */
  lemma WaitsFound(words: Program, halt: nat, mult: seq<nat>, nops: seq<nat>, next: Program)
    requires |mult| == |words| && forall b :: 0 <= b < |words| ==> mult[b] == Bound(words, halt, b)
    requires (nops != [] || exists a :: 0 <= a < |words| && Opcode(words[a]) == OP_WAIT && mult[a] > 0) ==>
               exists a :: 0 <= a < |next| && WideWait(next[a])
    requires (exists a: nat, b: nat :: Spare(words, halt, a) && Spare(words, halt, b) && a != b) ==> nops != []
    requires (exists a: nat, b: nat :: Spare(words, halt, a) && CanRun(words, halt, OP_DELAY, b)) ==> nops != []
    ensures WaitWidened(words, halt, next)
  {
    hide Bound, Opcode, WideWait, Spare;
    if a: nat :| CanRun(words, halt, OP_WAIT, a) {
      assert Opcode(words[a]) == OP_WAIT && mult[a] > 0;
    }
  }

  lemma DelaysDone(words: Program, halt: nat, mult: seq<nat>, picked: seq<nat>, widened: Program, next: Program,
                   budget: nat)
    requires |words| == |widened| == |next| == |mult| && forall k :: 0 <= k < |picked| ==> picked[k] < |words|
    requires (|| (exists a: nat :: CanRun(words, halt, OP_DELAY, a) && Payable(Bound(words, halt, a), budget))
              || ((forall a: nat :: !CanRun(words, halt, OP_DELAY, a)) && (exists a: nat :: Spare(words, halt, a))
                  && Payable(1, budget)))
             ==> exists k :: 0 <= k < |picked| && Payable(mult[picked[k]], budget)
    requires (exists k :: 0 <= k < |picked| && Payable(mult[picked[k]], budget)) ==>
               exists k :: 0 <= k < |picked| && WideDelay(widened[picked[k]])
    requires (exists k :: 0 <= k < |picked| && WideDelay(widened[picked[k]])) ==>
               exists a :: 0 <= a < |next| && WideDelay(next[a])
    ensures DelayWidened(words, halt, next, budget)
  {
    hide Bound, WideDelay, Payable, CanRun, Spare;
  }

  lemma WithinLength(words: Program, next: Program, halt: nat, budget: nat)
    requires Within(words, next, halt, budget)
    ensures Retimed(words, next) && |next| == |words|
  {
  }

  /** The rewritten program has the structure of the original, so it halts under all pin
      activity without misusing CALL and RET. */
  lemma WideLaid(words: Program, l: Layout, next: Program, budget: nat)
    requires Promise(words, l, next, budget)
    ensures var r := Rewritten(l, next);
            LayoutOk(r) && Laid(r, next) && LeafOnly(r.sub) && FlatLoops(r.items) && HaltAt(r) == HaltAt(l)
  {
    hide Within, LayoutOk, Laid, FlatLoops, NoLoops;
    WithinLength(words, next, HaltAt(l), budget);
    RetimedRewrites(l, words, next);
    RewrittenLaid(l, words, next);
    RereadFlat(l.items, next);
  }

  /** From reset, for all pin activity, the retimed program halts with both sticky flags
      clear. */
  lemma WideHalts(words: Program, l: Layout, next: Program, budget: nat, io: Stimulus, t0: nat)
    returns (tr: seq<nat>, d: Config)
    requires Promise(words, l, next, budget)
    ensures Path(next, io, Config(Reset(), t0), tr, d)
    ensures d.s.halted && !d.s.callRetMisuse && !d.s.illegalOp
  {
    hide Within, LayoutOk, Laid, FlatLoops, LeafOnly, Rewritten, RandomGen.AllDefined;
    WideLaid(words, l, next, budget);
    tr, d := RandomRuns.ProgramHalts(next, Rewritten(l, next), io, t0);
  }

  lemma RereadFlat(items: seq<Item>, next: Program)
    requires FlatLoops(items)
    ensures FlatLoops(RereadAll(items, 0, next))
  {
    var r := RereadAll(items, 0, next);
    forall i | 0 <= i < |r| && r[i].Loop? ensures NoLoops(r[i].body) && r[i].count >= 1 {
      RereadAt(items, |items|, 0, next, i);
      var b := Start(items, i) + 1;
      forall j | 0 <= j < |r[i].body| ensures r[i].body[j].Leaf? || r[i].body[j].Branch? {
        RereadAt(items[i].body, |items[i].body|, b, next, j);
      }
    }
  }

  /** Whatever the pins do and however far the program has run: the cycles held by every
      executed DELAY that the random program did not have there add up to at most the
      budget. */
  lemma WideWithinBudget(words: Program, l: Layout, next: Program, maxCycles: int, io: Stimulus, t0: nat,
                         tr: seq<nat>, d: Config)
    requires Promise(words, l, next, BudgetOf(maxCycles)) && Path(next, io, Config(Reset(), t0), tr, d)
    ensures Total(WideCosts(words, next), tr) <= BudgetOf(maxCycles)
  {
    var halt, budget := HaltAt(l), BudgetOf(maxCycles);
    WideLaid(words, l, next, budget);
    WithinLength(words, next, halt, budget);
    hide Path, LayoutOk, Laid, LeafOnly, FlatLoops, Rewritten, Bound, Retimed, WideCost;
    forall a: nat | a < |words| && WideCost(words, next, a) > 0 ensures Visits(tr, a) <= Bound(words, halt, a) {
      CostlyIsDelay(words, next, a);
      BoundIsSound(Rewritten(l, next), next, io, t0, tr, d, a);
      BoundsAgree(words, next, halt, a);
    }
    ChargeCovers(words, next, tr, halt, |words|);
    CostSum(words, next, tr);
  }

  lemma CostlyIsDelay(words: Program, next: Program, a: nat)
    requires WideCost(words, next, a) > 0
    ensures !IsLoop(Fetch(next, a))
  {
    hide Decode;
  }

  lemma BoundsAgree(words: Program, next: Program, halt: nat, b: nat)
    requires Retimed(words, next)
    ensures Bound(next, halt, b) == Bound(words, halt, b)
  {
    BoundSame(words, next, halt, b);
  }
}
