/** Stimulus profile with reserved opcodes: a few leaf words of a random program are
    overwritten in place by words of opcodes 21 to 31. */
module IllegalMix {
  import opened Bits
  import opened Isa
  import opened Machine
  import opened Runs
  import opened LeafWords
  import opened Layouts
  import opened Emission
  import RandomGen

  const EXTRA_MAX := 3

  predicate IsStructural(w: Word) {
    var op := Opcode(w);
    op == OP_BRANCH || op == OP_LOOP || op == OP_RET || op == OP_HALT
  }

  /** The word before some loop's target is protected: it seeds the counter. */
  predicate Protected(words: Program, halt: nat, pc: nat) {
    exists lp :: 0 <= lp < halt && Targets(words, lp, pc)
  }

  predicate Targets(words: Program, lp: nat, pc: nat) {
    Opcode(Fetch(words, lp)) == OP_LOOP && Isa.Address(Operands(Fetch(words, lp))) == pc + 1
  }

  predicate Eligible(words: Program, halt: nat, pc: nat) {
    pc < |words| && pc != halt && !Protected(words, halt, pc) && !IsStructural(words[pc]) && Opcode(words[pc]) < 19
  }

  predicate InLoop(words: Program, halt: nat, pc: nat) {
    exists lp :: 0 <= lp < halt && Holds(words, lp, pc)
  }

  predicate Holds(words: Program, lp: nat, pc: nat) {
    Opcode(Fetch(words, lp)) == OP_LOOP && Isa.Address(Operands(Fetch(words, lp))) <= pc < lp
  }

  /** Eligible program counters by region. */
  datatype Regions = Regions(main: seq<nat>, loops: seq<nat>, sub: seq<nat>)

  ghost predicate RegionsOf(words: Program, halt: nat, r: Regions, n: nat) {
    && (forall pc: nat :: pc in r.main <==>
          pc < n && Eligible(words, halt, pc) && pc < halt && !InLoop(words, halt, pc))
    && (forall pc: nat :: pc in r.loops <==>
          pc < n && Eligible(words, halt, pc) && pc < halt && InLoop(words, halt, pc))
    && (forall pc: nat :: pc in r.sub <==> pc < n && Eligible(words, halt, pc) && pc > halt)
  }

  predicate Ascending(pcs: seq<nat>) {
    forall i, j :: 0 <= i < j < |pcs| ==> pcs[i] < pcs[j]
  }

  lemma AscendingNext(pcs: seq<nat>, pc: nat)
    requires Ascending(pcs) && forall x: nat :: x in pcs ==> x < pc
    ensures Ascending(pcs + [pc])
  {
    forall i | 0 <= i < |pcs| ensures pcs[i] < pc {
      assert pcs[i] in pcs;
    }
  }

  lemma NextLoop(words: Program, lp: nat, pc: nat)
    ensures Protected(words, lp + 1, pc) <==> Protected(words, lp, pc) || Targets(words, lp, pc)
    ensures InLoop(words, lp + 1, pc) <==> InLoop(words, lp, pc) || Holds(words, lp, pc)
  {
  }

  predicate Between(target: nat, x: nat, lp: nat) {
    target <= x < lp
  }

  function BodyOf(target: nat, lp: nat): (body: set<nat>)
    ensures forall x: nat :: x in body <==> Between(target, x, lp)
  {
    set x: nat | x < lp && Between(target, x, lp)
  }

  method Classify(words: Program, halt: nat) returns (r: Regions)
    requires halt < |words|
    ensures RegionsOf(words, halt, r, |words|) && Ascending(r.main) && Ascending(r.loops) && Ascending(r.sub)
  {
    var guarded, inside: set<nat> := {}, {};
    for lp := 0 to halt
      invariant forall pc: nat :: pc in guarded <==> Protected(words, lp, pc)
      invariant forall pc: nat :: pc in inside <==> InLoop(words, lp, pc)
    {
      forall pc: nat
        ensures Protected(words, lp + 1, pc) <==> Protected(words, lp, pc) || Targets(words, lp, pc)
        ensures InLoop(words, lp + 1, pc) <==> InLoop(words, lp, pc) || Holds(words, lp, pc)
      {
        NextLoop(words, lp, pc);
      }
      if Opcode(words[lp]) == OP_LOOP {
        var target := Isa.Address(Operands(words[lp]));
        if target >= 1 {
          guarded := guarded + {target - 1};
        }
        assert forall pc: nat :: Between(target, pc, lp) <==> Holds(words, lp, pc);
        inside := inside + BodyOf(target, lp);
      }
    }
    r := Regions([], [], []);
    for pc := 0 to |words|
      invariant RegionsOf(words, halt, r, pc) && Ascending(r.main) && Ascending(r.loops) && Ascending(r.sub)
    {
      AscendingNext(r.main, pc);
      AscendingNext(r.loops, pc);
      AscendingNext(r.sub, pc);
      if !(pc == halt || pc in guarded || IsStructural(words[pc]) || Opcode(words[pc]) >= 19) {
        if pc > halt {
          r := Regions(r.main, r.loops, r.sub + [pc]);
        } else if pc in inside {
          r := Regions(r.main, r.loops + [pc], r.sub);
        } else {
          r := Regions(r.main + [pc], r.loops, r.sub);
        }
      }
    }
  }

  function Total(r: Regions): nat {
    |r.main| + |r.loops| + |r.sub|
  }

  /** An eighth, about, of the eligible words, and at least one. */
  function Cap(r: Regions): nat {
    var n := Total(r) * 12 / 100;
    if n > 1 then n else 1
  }

  predicate Chosen(r: Regions, chosen: seq<nat>) {
    && |chosen| <= Cap(r)
    && forall k :: 0 <= k < |chosen| ==> chosen[k] in r.main || chosen[k] in r.loops || chosen[k] in r.sub
  }

  /** The first is from the early third of the main part, if there is one. */
  predicate StartsEarly(r: Regions, chosen: seq<nat>) {
    r.main != [] ==> chosen != [] && exists k :: 0 <= k <= |r.main| / 3 && k < |r.main| && chosen[0] == r.main[k]
  }

  /** Every region with eligible words is hit, as far as the cap goes. */
  predicate EveryRegion(r: Regions, chosen: seq<nat>) {
    && (Total(r) > 0 ==> chosen != [])
    && (r.loops != [] && Cap(r) >= 2 ==> exists k :: 0 <= k < |chosen| && chosen[k] in r.loops)
    && (r.sub != [] && Cap(r) >= 3 ==> exists k :: 0 <= k < |chosen| && chosen[k] in r.sub)
  }

  /** One early word of the main part, one word of a loop body and one of the subroutine,
      where there are any, and up to `EXTRA_MAX` more; cut to the cap. */
  method Choose(r: Regions) returns (chosen: seq<nat>)
    ensures Chosen(r, chosen) && StartsEarly(r, chosen) && EveryRegion(r, chosen)
  {
    chosen := [];
    if r.main != [] {
      var k := RandInt(0, |r.main| / 3);
      chosen := chosen + [r.main[k]];
    }
    if r.loops != [] {
      var k := RandInt(0, |r.loops| - 1);
      chosen := chosen + [r.loops[k]];
    }
    if r.sub != [] {
      var k := RandInt(0, |r.sub| - 1);
      chosen := chosen + [r.sub[k]];
    }
    ghost var first := chosen;
    var extra := RandInt(0, EXTRA_MAX);
    if r.main != [] {
      for i := 0 to extra
        invariant forall k :: 0 <= k < |chosen| ==> chosen[k] in r.main || chosen[k] in r.loops || chosen[k] in r.sub
        invariant first <= chosen
      {
        var k := RandInt(0, |r.main| - 1);
        if r.main[k] !in chosen {
          chosen := chosen + [r.main[k]];
        }
      }
    }
    ghost var all := chosen;
    if |chosen| > Cap(r) {
      chosen := chosen[..Cap(r)];
    }
    FirstPicks(r, first, all, chosen);
  }

  /** The first picks, one for each region, survive the cut as far as the cap goes. */
  lemma FirstPicks(r: Regions, first: seq<nat>, all: seq<nat>, chosen: seq<nat>)
    requires first <= all && chosen == (if |all| > Cap(r) then all[..Cap(r)] else all)
    requires var m, l, s := if r.main != [] then 1 else 0, if r.loops != [] then 1 else 0, if r.sub != [] then 1 else 0;
             && |first| == m + l + s
             && (m == 1 ==> exists k :: 0 <= k <= |r.main| / 3 && k < |r.main| && first[0] == r.main[k])
             && (l == 1 ==> first[m] in r.loops) && (s == 1 ==> first[m + l] in r.sub)
    ensures StartsEarly(r, chosen) && EveryRegion(r, chosen)
  {
    var m, l := if r.main != [] then 1 else 0, if r.loops != [] then 1 else 0;
    assert forall k :: 0 <= k < |first| && k < |chosen| ==> chosen[k] == first[k];
    if r.loops != [] && Cap(r) >= 2 {
      assert chosen[m] in r.loops;
    }
    if r.sub != [] && Cap(r) >= 3 {
      assert chosen[m + l] in r.sub;
    }
  }

  // ------------------------------------------------------------ rewriting

  predicate ReservedWord(w: Word) { 21 <= Opcode(w) }

  lemma ReservedHarmless(w: Word)
    requires ReservedWord(w)
    ensures Decode(w).Reserved? && Harmless(w)
  {
  }

  /** Words as the profile changes them. */
  predicate Replaced(words: Program, next: Program, chosen: seq<nat>) {
    && |next| == |words|
    && forall a :: 0 <= a < |words| ==> if a in chosen then ReservedWord(next[a]) else next[a] == words[a]
  }

  method Overwrite(words: Program, chosen: seq<nat>) returns (next: Program)
    requires forall k :: 0 <= k < |chosen| ==> chosen[k] < |words|
    ensures Replaced(words, next, chosen)
  {
    next := words;
    for i := 0 to |chosen|
      invariant |next| == |words|
      invariant forall a :: 0 <= a < |words| ==> if a in chosen[..i] then ReservedWord(next[a]) else next[a] == words[a]
    {
      var op := RandInt(21, 31);
      var bits := RandInt(0, 2047);
      var w: Word := op * 2048 + bits;
      next := next[chosen[i] := w];
      assert chosen[..i + 1] == chosen[..i] + [chosen[i]];
    }
    assert chosen[..|chosen|] == chosen;
  }

  /** What the profile's own test of the words lets through is replaceable: it falls
      through and seeds no loop. */
  lemma EligibleReplaceable(l: Layout, words: Program, a: nat)
    requires LayoutOk(l) && Laid(l, words) && Length(l) == |words| && Eligible(words, HaltAt(l), a)
    ensures Replaceable(words, a, HaltAt(l))
  {
    OpcodeKinds(words[a]);
    if a < HaltAt(l) {
      HaltIsFirst(l, words, a);
    } else {
      if a == RetAt(l) {
        assert false;
      }
      SubKinds(l, words, a);
    }
    hide Laid, LayoutOk;
    if SeedsLoop(words, a, HaltAt(l)) {
      var lp: nat, reg: nat :| LoopsTo(words, lp, a, HaltAt(l), reg);
      LoopWord(words, lp, a, reg);
      assert false;
    }
  }

  lemma OpcodeKinds(w: Word)
    ensures StructuralWord(w) ==> IsStructural(w)
    ensures Decode(w) == Ret ==> IsStructural(w)
  {
  }

  lemma LoopWord(words: Program, lp: nat, a: nat, reg: nat)
    requires Decode(Fetch(words, lp)) == Instr.Loop(a + 1, reg)
    ensures Targets(words, lp, a)
  {
  }

  /** The rewritten program is laid out like the original. */
  lemma MixLaid(l: Layout, words: Program, next: Program, r: Regions, chosen: seq<nat>)
    requires LayoutOk(l) && Laid(l, words) && LeafOnly(l.sub) && Length(l) == |words|
    requires RegionsOf(words, HaltAt(l), r, |words|) && Chosen(r, chosen) && Replaced(words, next, chosen)
    ensures LayoutOk(Rewritten(l, next)) && Laid(Rewritten(l, next), next) && LeafOnly(Rewritten(l, next).sub)
  {
    forall a: nat ensures RewrittenAt(words, next, HaltAt(l), a) {
      if a < |words| && a in chosen {
        EligibleReplaceable(l, words, a);
        ReservedHarmless(next[a]);
      }
    }
    hide Laid, LayoutOk, Replaced, RegionsOf, RewrittenAt;
    assert Rewrites(words, next, HaltAt(l));
    RewrittenLaid(l, words, next);
  }

  /** What the profile promises beside the structure: reserved words exactly at addresses it
      may overwrite, the first in the early third of the main part, each region hit, no more
      than the cap. */
  ghost predicate Mixed(words: Program, halt: nat, r: Regions, chosen: seq<nat>, next: Program) {
    && RegionsOf(words, halt, r, |words|) && Ascending(r.main) && Ascending(r.loops) && Ascending(r.sub)
    && Chosen(r, chosen) && StartsEarly(r, chosen) && EveryRegion(r, chosen) && Replaced(words, next, chosen)
  }

  /** The profile's generator: same length, same structure, and only the chosen words
      changed, each to a reserved one. */
  method GenerateProgram(delays: Caps, waits: Caps)
    returns (next: Program, ghost l: Layout, ghost chosen: seq<nat>, ghost words: Program, ghost r: Regions)
    requires DelayCaps(delays) && WaitCaps(waits)
    ensures |next| <= PROGRAM_WORD_LIMIT
    ensures LayoutOk(l) && Laid(l, next) && LeafOnly(l.sub) && Mixed(words, HaltAt(l), r, chosen, next)
    ensures forall k :: 0 <= k < |chosen| ==> chosen[k] < |next|
    ensures forall a :: 0 <= a < |next| ==> (ReservedWord(next[a]) <==> a in chosen)
  {
    ghost var base, bs;
    var given;
    RandomGen.DefaultFits();
    given, base, bs := RandomGen.GenerateProgram(RandomGen.DEFAULT_SHAPE, delays, waits);
    hide LayoutOk, Laid, RegionsOf, RandomGen.AllDefined;
    HasHalt(base, given);
    var halt := FindHalt(given);
    HaltFound(base, given, halt);
    var regions := Classify(given, halt);
    var picks := Choose(regions);
    PicksInside(given, halt, regions, picks);
    next := Overwrite(given, picks);
    MixLaid(base, given, next, regions, picks);
    OnlyChosen(given, next, picks);
    l, chosen, words, r := Rewritten(base, next), picks, given, regions;
    SameHalt(base, next);
  }

  lemma SameHalt(l: Layout, next: Program)
    ensures HaltAt(Rewritten(l, next)) == HaltAt(l)
  {
    RereadStart(l.items, |l.items|, |l.items|, 0, next);
  }

  lemma PicksInside(words: Program, halt: nat, r: Regions, chosen: seq<nat>)
    requires RegionsOf(words, halt, r, |words|) && Chosen(r, chosen)
    ensures forall k :: 0 <= k < |chosen| ==> chosen[k] < |words|
  {
  }

  lemma OnlyChosen(words: Program, next: Program, chosen: seq<nat>)
    requires RandomGen.AllDefined(words) && Replaced(words, next, chosen)
    ensures forall a :: 0 <= a < |next| ==> (ReservedWord(next[a]) <==> a in chosen)
  {
  }

  /** Such a program still halts under all pin activity, without misusing CALL and RET. */
  lemma MixHalts(l: Layout, next: Program, io: Stimulus, t0: nat) returns (tr: seq<nat>, d: Config)
    requires LayoutOk(l) && Laid(l, next)
    ensures Path(next, io, Config(Reset(), t0), tr, d) && Valid(d.s) && d.s.halted && !d.s.callRetMisuse
  {
    hide LayoutOk, Laid;
    tr, d := LayoutHalts(l, next, io, a => 0, t0);
  }

  /** At any point of any run, the illegal-opcode flag is set exactly if one of the
      overwritten words has been executed. */
  lemma FlagTellsExecution(next: Program, chosen: seq<nat>, io: Stimulus, t0: nat, tr: seq<nat>, d: Config)
    requires forall a :: 0 <= a < |next| ==> (ReservedWord(next[a]) <==> a in chosen)
    requires forall k :: 0 <= k < |chosen| ==> chosen[k] < |next|
    requires Path(next, io, Config(Reset(), t0), tr, d)
    ensures d.s.illegalOp <==> exists k :: 0 <= k < |tr| && tr[k] in chosen
  {
    IllegalFlagExact(next, io, Config(Reset(), t0), tr, d);
    hide Path;
    forall k | 0 <= k < |tr| ensures IsReserved(next, tr[k]) <==> tr[k] in chosen {
    }
  }
}
