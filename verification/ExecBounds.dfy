/** How often each word of a flat random program can execute: a static count read off
    the words, and why no run exceeds it. */
module ExecBounds {
  import opened Bits
  import opened Isa
  import opened Machine
  import opened Runs
  import opened Structured
  import opened Layouts

  /** The weight that counts executions of `a`. */
  function At(a: nat): nat -> nat {
    x => if x == a then 1 else 0
  }

  // ------------------------------------------------------------ weights of one address

  lemma {:induction false} SpanOnce(b: nat, n: nat, a: nat)
    ensures SpanWeight(b, n, At(a)) == if b <= a < b + n then 1 else 0
    decreases n
  {
    if n > 0 {
      SpanOnce(b + 1, n - 1, a);
    }
  }

  /** An item that is no loop executes each of its words at most once. */
  lemma SimpleOnce(it: Item, b: nat, a: nat, cw: nat)
    requires it.Leaf? || it.Branch?
    ensures ItemWeight(it, b, At(a), cw) == if b <= a < b + ItemSize(it) then 1 else 0
  {
    if it.Branch? {
      SpanOnce(b, |it.pre| + 1, a);
    }
  }

  lemma {:induction false} BodyOnce(items: seq<Item>, i: nat, base: nat, a: nat, cw: nat)
    requires NoLoops(items) && i <= |items|
    ensures WeightFrom(items, i, base, At(a), cw) == if base + Start(items, i) <= a < base + SeqSize(items) then 1
            else 0
    decreases |items| - i
  {
    if i < |items| {
      BodyOnce(items, i + 1, base, a, cw);
      SimpleOnce(items[i], base + Start(items, i), a, cw);
      StartMonotone(items, i + 1, |items|);
    }
  }

  /** A word of a loop item executes once if it is the counter's seed, else at most as
      often as the loop counts. */
  lemma LoopTimes(it: Item, b: nat, a: nat, cw: nat)
    requires it.Loop? && NoLoops(it.body)
    ensures ItemWeight(it, b, At(a), cw) ==
            if a == b then 1 else if b < a < b + ItemSize(it) then it.count else 0
  {
    BodyOnce(it.body, 0, b + 1, a, cw);
    var lp := b + 1 + SeqSize(it.body);
    var inner := WeightFrom(it.body, 0, b + 1, At(a), cw) + At(a)(lp);
    assert inner == if b < a <= lp then 1 else 0;
    assert it.count * inner == if b < a <= lp then it.count else 0;
  }

  /** How often the structure lets `a` execute: the count of the loop around it. */
  function Times(items: seq<Item>, base: nat, a: nat, n: nat): nat
    requires n <= |items|
  {
    if n == 0 then 1
    else
      var b := base + Start(items, n - 1);
      if items[n - 1].Loop? && b < a < b + ItemSize(items[n - 1]) then items[n - 1].count
      else Times(items, base, a, n - 1)
  }

  /** An address of the main part, weighed: only the item around it counts. */
  lemma {:induction false} MainTimes(items: seq<Item>, i: nat, base: nat, a: nat)
    requires FlatLoops(items) && i <= |items|
    ensures WeightFrom(items, i, base, At(a), 0) <=
            if base + Start(items, i) <= a < base + SeqSize(items) then Times(items, base, a, |items|) else 0
    decreases |items| - i
  {
    if i < |items| {
      MainTimes(items, i + 1, base, a);
      StartMonotone(items, i + 1, |items|);
      ItemTimes(items, i, base, a);
      TimesPositive(items, base, a, |items|);
    }
  }

  lemma ItemTimes(items: seq<Item>, i: nat, base: nat, a: nat)
    requires FlatLoops(items) && i < |items|
    ensures var b := base + Start(items, i);
            ItemWeight(items[i], b, At(a), 0) <=
            if b <= a < b + ItemSize(items[i]) then (if items[i].Loop? && b < a then items[i].count else 1) else 0
    ensures var b := base + Start(items, i);
            items[i].Loop? && b < a < b + ItemSize(items[i]) ==> Times(items, base, a, |items|) == items[i].count
  {
    var b := base + Start(items, i);
    if items[i].Loop? {
      LoopTimes(items[i], b, a, 0);
      if b < a < b + ItemSize(items[i]) {
        TimesAt(items, base, a, i, |items|);
      }
    } else if items[i].Leaf? || items[i].Branch? {
      SimpleOnce(items[i], b, a, 0);
    }
  }

  lemma {:induction false} TimesAt(items: seq<Item>, base: nat, a: nat, i: nat, n: nat)
    requires i < n <= |items| && items[i].Loop?
    requires var b := base + Start(items, i); b < a < b + ItemSize(items[i])
    ensures Times(items, base, a, n) == items[i].count
    decreases n
  {
    if i < n - 1 {
      StartMonotone(items, i + 1, n - 1);
      TimesAt(items, base, a, i, n - 1);
    }
  }

  lemma {:induction false} TimesPositive(items: seq<Item>, base: nat, a: nat, n: nat)
    requires n <= |items| && FlatLoops(items)
    ensures Times(items, base, a, n) >= 1
    decreases n
  {
    if n > 0 {
      TimesPositive(items, base, a, n - 1);
    }
  }

  // ------------------------------------------------------------ the static count

  predicate IsLoop(w: Word) { Decode(w).Loop? }

  predicate IsCallWord(w: Word) { IsCall(Decode(w)) }

  /** The passes a LOOP word makes: its counter's seed, if that is the LDI right before
      its target, else 8. */
  function LoopCount(words: Program, pc: nat): (c: nat)
    requires IsLoop(Fetch(words, pc))
  {
    var i := Decode(Fetch(words, pc));
    var target: int := i.addr;
    if target >= 1 then
      var seed := Decode(Fetch(words, target - 1));
      if seed.Ldi? && seed.rd == i.rd then (if seed.value > 1 then seed.value else 1) else 8
    else 8
  }

  function Larger(a: nat, b: nat): nat {
    if a >= b then a else b
  }

  /** The largest count of the loops before `n` whose body holds `b`. */
  function MainBound(words: Program, n: nat, b: nat): (m: nat)
    ensures m >= 1
  {
    if n == 0 then 1
    else
      var w := Fetch(words, n - 1);
      var rest := MainBound(words, n - 1, b);
      if IsLoop(w) && Decode(w).addr <= b < n - 1 then Larger(rest, LoopCount(words, n - 1)) else rest
  }

  function CallSites(words: Program, n: nat): nat {
    if n == 0 then 0 else CallSites(words, n - 1) + (if IsCallWord(Fetch(words, n - 1)) then 1 else 0)
  }

  /** The bound the profile charges a word by. */
  function Bound(words: Program, halt: nat, b: nat): nat {
    if b > halt then CallSites(words, halt) else MainBound(words, halt, b)
  }

  /** The source's array, filled loop by loop. */
  method ComputeBounds(words: Program, halt: nat) returns (mult: seq<nat>)
    requires halt < |words|
    ensures |mult| == |words| && forall b :: 0 <= b < |words| ==> mult[b] == Bound(words, halt, b)
  {
    hide LoopCount, IsCallWord, Decode, Larger;
    var calls := 0;
    for pc := 0 to halt
      invariant calls == CallSites(words, pc)
    {
      if IsCallWord(words[pc]) {
        calls := calls + 1;
      }
    }
    mult := seq(|words|, b requires 0 <= b < |words| => if b > halt then calls else 1);
    for pc := 0 to halt
      invariant |mult| == |words|
      invariant forall b :: 0 <= b < |words| ==> mult[b] == if b > halt then calls else MainBound(words, pc, b)
    {
      if IsLoop(words[pc]) {
        var target := Decode(words[pc]).addr;
        var count := LoopCount(words, pc);
        ghost var before := mult;
        var b := target;
        while b < pc
          invariant target <= b && (b <= pc || b == target) && |mult| == |words|
          invariant forall x :: 0 <= x < |words| ==>
                      mult[x] == if target <= x < b && x < pc then Larger(before[x], count) else before[x]
        {
          mult := mult[b := Larger(mult[b], count)];
          b := b + 1;
        }
      }
    }
  }

  lemma {:induction false} MainBoundCovers(words: Program, n: nat, lp: nat, b: nat)
    requires lp < n && IsLoop(Fetch(words, lp)) && Decode(Fetch(words, lp)).addr <= b < lp
    ensures MainBound(words, n, b) >= LoopCount(words, lp)
    decreases n
  {
    if lp < n - 1 {
      MainBoundCovers(words, n - 1, lp, b);
    }
  }

  /** The static count covers what the structure allows, LOOP words apart. */
  lemma {:induction false} TimesCovered(items: seq<Item>, n: nat, words: Program, end: nat, brk: nat, sub: nat, a: nat)
    requires n <= |items| && FlatLoops(items) && Placed(words, items, 0, end, brk, sub) && SeqSize(items) <= end
    requires !IsLoop(Fetch(words, a))
    ensures Times(items, 0, a, n) <= MainBound(words, end, a)
    decreases n
  {
    if n > 0 {
      var it, b := items[n - 1], Start(items, n - 1);
      if it.Loop? && b < a < b + ItemSize(it) {
        assert PlacedAt(words, items, n - 1, 0, end, brk, sub);
        var lp := b + 1 + SeqSize(it.body);
        StartMonotone(items, n, |items|);
        assert a != lp;
        MainBoundCovers(words, end, lp, a);
      } else {
        TimesCovered(items, n - 1, words, end, brk, sub, a);
      }
    }
  }

  // ------------------------------------------------------------ the subroutine

  function CallItems(items: seq<Item>, n: nat): nat
    requires n <= |items|
  {
    if n == 0 then 0 else CallItems(items, n - 1) + (if items[n - 1].Call? then 1 else 0)
  }

  /** Beyond the main part only calls weigh. */
  lemma {:induction false} CallsWeigh(items: seq<Item>, i: nat, a: nat, cw: nat)
    requires FlatLoops(items) && i <= |items| && a >= SeqSize(items) && cw <= 1
    ensures WeightFrom(items, i, 0, At(a), cw) + CallItems(items, i) <= CallItems(items, |items|)
    ensures cw == 0 ==> WeightFrom(items, i, 0, At(a), cw) == 0
    decreases |items| - i
  {
    if i < |items| {
      CallsWeigh(items, i + 1, a, cw);
      StartMonotone(items, i + 1, |items|);
      if items[i].Loop? {
        LoopTimes(items[i], Start(items, i), a, cw);
      } else if !items[i].Call? {
        SimpleOnce(items[i], Start(items, i), a, cw);
      }
    }
  }

  lemma {:induction false} CallSitesMono(words: Program, m: nat, n: nat)
    requires m <= n
    ensures CallSites(words, m) <= CallSites(words, n)
    decreases n
  {
    if m < n {
      CallSitesMono(words, m, n - 1);
    }
  }

  /** Every call item is a CALL word of the main part. */
  lemma {:induction false} CallsCounted(items: seq<Item>, n: nat, words: Program, end: nat, brk: nat, sub: nat)
    requires n <= |items| && Placed(words, items, 0, end, brk, sub)
    ensures CallItems(items, n) <= CallSites(words, Start(items, n))
    decreases n
  {
    if n > 0 {
      CallsCounted(items, n - 1, words, end, brk, sub);
      assert PlacedAt(words, items, n - 1, 0, end, brk, sub);
      CallSitesMono(words, Start(items, n - 1) + 1, Start(items, n));
      if items[n - 1].Call? {
        var a := Start(items, n - 1);
        assert IsCallWord(Fetch(words, a));
        assert CallSites(words, a + 1) == CallSites(words, a) + 1;
      } else {
        CallSitesMono(words, Start(items, n - 1), Start(items, n));
      }
    }
  }

  lemma LeavesNoLoops(items: seq<Item>)
    requires LeafOnly(items)
    ensures NoLoops(items)
  {
  }

  /** One run of the subroutine executes each of its words once. */
  lemma SubOnce(l: Layout, a: nat)
    requires LeafOnly(l.sub)
    ensures CallPart(l, At(a)) == if l.calls && SubAt(l) <= a <= RetAt(l) then 1 else 0
  {
    LeavesNoLoops(l.sub);
    BodyOnce(l.sub, 0, SubAt(l), a, 0);
  }

  lemma WeightBound(l: Layout, words: Program, a: nat)
    requires LayoutOk(l) && Laid(l, words) && LeafOnly(l.sub) && FlatLoops(l.items) && !IsLoop(Fetch(words, a))
    ensures LayoutWeight(l, At(a)) <= Bound(words, HaltAt(l), a)
  {
    SubOnce(l, a);
    if a > HaltAt(l) {
      CallsWeigh(l.items, 0, a, CallPart(l, At(a)));
      CallsCounted(l.items, |l.items|, words, HaltAt(l), HaltAt(l), SubAt(l));
    } else {
      MainTimes(l.items, 0, 0, a);
      TimesCovered(l.items, |l.items|, words, HaltAt(l), HaltAt(l), SubAt(l), a);
    }
  }

  /** The static bound is sound: under any pins, at any point of any run from reset, a
      word that is no LOOP has executed at most `Bound` times. */
  lemma BoundIsSound(l: Layout, words: Program, io: Stimulus, t0: nat, tr: seq<nat>, d: Config, a: nat)
    requires LayoutOk(l) && Laid(l, words) && LeafOnly(l.sub) && FlatLoops(l.items) && !IsLoop(Fetch(words, a))
    requires Path(words, io, Config(Reset(), t0), tr, d)
    ensures Visits(tr, a) <= Bound(words, HaltAt(l), a)
  {
    WeightBound(l, words, a);
    hide LayoutOk, Laid, LayoutWeight, Bound, Path, LeafOnly, FlatLoops;
    var full, e := LayoutHalts(l, words, io, At(a), t0);
    PathPrefix(words, io, Config(Reset(), t0), full, e, tr, d);
    VisitsPrefix(full, |tr|, a);
    VisitsTotal(full, a);
  }

  /** No run leaves the program: past HALT it executes only the subroutine, and that only
      if the program calls it. */
  lemma NeverOutside(l: Layout, words: Program, io: Stimulus, t0: nat, tr: seq<nat>, d: Config, a: nat)
    requires LayoutOk(l) && Laid(l, words) && LeafOnly(l.sub) && FlatLoops(l.items)
    requires Path(words, io, Config(Reset(), t0), tr, d) && (a >= Length(l) || (a > HaltAt(l) && !l.calls))
    ensures Visits(tr, a) == 0
  {
    SubOnce(l, a);
    CallsWeigh(l.items, 0, a, CallPart(l, At(a)));
    assert LayoutWeight(l, At(a)) == 0;
    hide LayoutOk, Laid, LayoutWeight, Path, LeafOnly, FlatLoops;
    var full, e := LayoutHalts(l, words, io, At(a), t0);
    PathPrefix(words, io, Config(Reset(), t0), full, e, tr, d);
    VisitsPrefix(full, |tr|, a);
    VisitsTotal(full, a);
  }

  lemma {:induction false} VisitsPrefix(tr: seq<nat>, n: nat, a: nat)
    requires n <= |tr|
    ensures Visits(tr[..n], a) <= Visits(tr, a)
    decreases n
  {
    if n > 0 {
      VisitsPrefix(tr[1..], n - 1, a);
      assert tr[..n][1..] == tr[1..][..n - 1];
    }
  }

  lemma {:induction false} VisitsTotal(tr: seq<nat>, a: nat)
    ensures Visits(tr, a) == Total(At(a), tr)
    decreases |tr|
  {
    if tr != [] {
      VisitsTotal(tr[1..], a);
    }
  }

  // ------------------------------------------------------------ how large the bound is

  /** The loop that ends at `lp` goes round `b`. */
  predicate Around(words: Program, lp: nat, b: nat) {
    IsLoop(Fetch(words, lp)) && Decode(Fetch(words, lp)).addr <= b < lp
  }

  lemma {:induction false} MainBoundReached(words: Program, n: nat, b: nat)
    ensures MainBound(words, n, b) == 1
            || exists lp :: 0 <= lp < n && Around(words, lp, b) && MainBound(words, n, b) == LoopCount(words, lp)
    decreases n
  {
    hide LoopCount, IsLoop;
    if n > 0 {
      MainBoundReached(words, n - 1, b);
      assert Around(words, n - 1, b) || MainBound(words, n, b) == MainBound(words, n - 1, b);
    }
  }

  /** A word of the main part is charged by the largest count of a loop around it and by no
      more, and only once outside every loop. */
  lemma BoundIsTight(words: Program, halt: nat, b: nat)
    requires b <= halt
    ensures forall lp :: 0 <= lp < halt && Around(words, lp, b) ==> Bound(words, halt, b) >= LoopCount(words, lp)
    ensures Bound(words, halt, b) == 1
            || exists lp :: 0 <= lp < halt && Around(words, lp, b) && Bound(words, halt, b) == LoopCount(words, lp)
  {
    hide LoopCount, IsLoop, MainBound;
    MainBoundReached(words, halt, b);
    forall lp | 0 <= lp < halt && Around(words, lp, b) ensures MainBound(words, halt, b) >= LoopCount(words, lp) {
      MainBoundCovers(words, halt, lp, b);
    }
  }

  /** A loop is charged by the value its counter is loaded with right before it. */
  lemma CountIsSeed(words: Program, lp: nat, reg: nat, count: nat)
    requires IsLoop(Fetch(words, lp)) && Decode(Fetch(words, lp)).rd == reg && Decode(Fetch(words, lp)).addr >= 1
    requires Decode(Fetch(words, Decode(Fetch(words, lp)).addr - 1)) == Ldi(reg, count) && count >= 1
    ensures LoopCount(words, lp) == count
  {
    hide Decode;
  }
}
