/** Whole runs of the sequencer, as paths of executed program counters. */
module Runs {
  import opened Bits
  import opened Isa
  import opened Machine

  type Program = seq<Word>

  /** Past the end of the program the memory reads as NOP, word 0. */
  function Fetch(prog: Program, pc: nat): Word {
    if pc < |prog| then prog[pc] else 0
  }

  /** A state, and the cycle its next fetch starts in. */
  datatype Config = Config(s: State, t: nat)

  predicate Live(c: Config) {
    Valid(c.s) && !c.s.halted
  }

  /** One instruction; it enters execution two cycles after its fetch starts. */
  function Advance(prog: Program, io: Stimulus, c: Config): (r: Outcome)
    requires Valid(c.s)
    ensures r.Next? ==> Valid(r.state) && r.cycles >= 3
  {
    Step(c.s, Fetch(prog, c.s.pc), io, c.t + 2)
  }

  function After(c: Config, r: Outcome): Config
    requires r.Next?
  {
    Config(r.state, c.t + r.cycles)
  }

  /** Executing exactly the program counters `tr` leads from `c` to `d`. */
  predicate Path(prog: Program, io: Stimulus, c: Config, tr: seq<nat>, d: Config)
    requires Valid(c.s)
    decreases |tr|
  {
    if tr == [] then c == d
    else
      && !c.s.halted
      && tr[0] == c.s.pc
      && var r := Advance(prog, io, c);
      r.Next? && Path(prog, io, After(c, r), tr[1..], d)
  }

  lemma {:induction false} PathValid(prog: Program, io: Stimulus, c: Config, tr: seq<nat>, d: Config)
    requires Valid(c.s) && Path(prog, io, c, tr, d)
    ensures Valid(d.s)
    decreases |tr|
  {
    if tr != [] {
      PathValid(prog, io, After(c, Advance(prog, io, c)), tr[1..], d);
    }
  }

  lemma {:induction false} PathAppend(prog: Program, io: Stimulus, c: Config, tr1: seq<nat>, d: Config, tr2: seq<nat>,
                                      e: Config)
    requires Valid(c.s) && Path(prog, io, c, tr1, d) && Valid(d.s) && Path(prog, io, d, tr2, e)
    ensures Path(prog, io, c, tr1 + tr2, e)
    decreases |tr1|
  {
    hide Advance;
    if tr1 == [] {
      assert tr1 + tr2 == tr2;
    } else {
      PathAppend(prog, io, After(c, Advance(prog, io, c)), tr1[1..], d, tr2, e);
      assert (tr1 + tr2)[1..] == tr1[1..] + tr2;
    }
  }

  /** The machine is deterministic: of two paths from one configuration, one of
      which reaches HALT, the other is an initial part of it. */
  lemma {:induction false} PathPrefix(prog: Program, io: Stimulus, c: Config, tr: seq<nat>, d: Config, tr': seq<nat>,
                                      d': Config)
    requires Valid(c.s) && Path(prog, io, c, tr, d) && d.s.halted
    requires Path(prog, io, c, tr', d')
    ensures |tr'| <= |tr| && tr' == tr[..|tr'|]
    ensures Valid(d'.s) && Path(prog, io, d', tr[|tr'|..], d)
    decreases |tr|
  {
    if tr' == [] {
      assert tr[0..] == tr;
    } else {
      var c1 := After(c, Advance(prog, io, c));
      PathPrefix(prog, io, c1, tr[1..], d, tr'[1..], d');
      assert tr[|tr'|..] == tr[1..][|tr'[1..]|..];
    }
  }

  // ------------------------------------------------------------ weights

  /** The sum of a weight over the executed addresses. */
  function Total(wt: nat -> nat, tr: seq<nat>): nat {
    if tr == [] then 0 else wt(tr[0]) + Total(wt, tr[1..])
  }

  lemma {:induction false} TotalAppend(wt: nat -> nat, tr1: seq<nat>, tr2: seq<nat>)
    ensures Total(wt, tr1 + tr2) == Total(wt, tr1) + Total(wt, tr2)
    decreases |tr1|
  {
    if tr1 == [] {
      assert tr1 + tr2 == tr2;
    } else {
      TotalAppend(wt, tr1[1..], tr2);
      assert (tr1 + tr2)[1..] == tr1[1..] + tr2;
    }
  }

  lemma TotalOne(wt: nat -> nat, a: nat)
    ensures Total(wt, [a]) == wt(a)
  {
    assert [a][1..] == [];
  }

  lemma {:induction false} TotalMember(wt: nat -> nat, tr: seq<nat>, k: nat)
    requires k < |tr|
    ensures wt(tr[k]) <= Total(wt, tr)
    decreases |tr|
  {
    if k > 0 {
      TotalMember(wt, tr[1..], k - 1);
    }
  }

  lemma {:induction false} TotalMono(f: nat -> nat, g: nat -> nat, tr: seq<nat>)
    requires forall a :: a in tr ==> f(a) <= g(a)
    ensures Total(f, tr) <= Total(g, tr)
    decreases |tr|
  {
    if tr != [] {
      assert tr[0] in tr;
      TotalMono(f, g, tr[1..]);
    }
  }

  /** How often an address was executed. */
  function Visits(tr: seq<nat>, a: nat): nat {
    if tr == [] then 0 else (if tr[0] == a then 1 else 0) + Visits(tr[1..], a)
  }

  // ------------------------------------------------------------ cycles

  /** Static worst-case cycles of one execution of a word. */
  function WordCost(w: Word): nat {
    match Decode(w)
    case Delay(mantissa, exponent) => 3 + mantissa * Unit(exponent)
    case Wait(_, _, mantissa, exponent) => 4 + mantissa * Unit(exponent)
    case _ => 3
  }

  lemma {:induction false} PathTime(prog: Program, io: Stimulus, c: Config, tr: seq<nat>, d: Config)
    requires Valid(c.s) && Path(prog, io, c, tr, d)
    ensures c.t + 3 * |tr| <= d.t
    decreases |tr|
  {
    if tr != [] {
      PathTime(prog, io, After(c, Advance(prog, io, c)), tr[1..], d);
    }
  }

  /** A WAIT without a timeout has mantissa 0. */
  predicate Timed(w: Word) {
    var i := Decode(w);
    i.Wait? ==> i.mantissa != 0
  }

  lemma TimedTarget(i: Instr)
    requires i.Wait? && InRange(i)
    ensures 0 <= i.mantissa * Unit(i.exponent) <= 1_015_808
  {
    assert i.mantissa * Unit(i.exponent) <= 31 * Unit(i.exponent) by {
      MulMono(i.mantissa, 31, Unit(i.exponent));
    }
  }

  lemma MulMono(a: int, b: int, c: nat)
    requires a <= b
    ensures a * c <= b * c
  {
  }

  /** A timed WAIT ends, at the first extra cycle that meets the condition or
      exhausts the time, and its cost bounds the cycles it takes. */
  lemma WaitBounded(s: State, w: Word, io: Stimulus, t: nat)
    requires Valid(s) && Decode(w).Wait? && Timed(w)
    ensures var r := Step(s, w, io, t);
      r.Next? && r.cycles <= WordCost(w) && r.state == Goto(WithFlag(s, r.state.flag), (s.pc + 1) % 512)
  {
    var i := Decode(w);
    TimedTarget(i);
    assert WaitDone(io, t, i, i.mantissa * Unit(i.exponent));
  }

  /** The pin carries the awaited level at extra cycle `k`. */
  predicate MatchedAt(io: Stimulus, t: nat, i: Instr, k: nat)
    requires i.Wait? && InRange(i)
  {
    Met(io, t + k, i.pin, i.level)
  }

  /** WAIT, timed or not: it takes the least number of extra cycles after which the pin
      matches or the time is up; the flag reports a timeout, and a match on the very last
      cycle counts as a match. It fails to end only if it has no timeout and the pin stays
      away for the whole of the cap. */
  lemma WaitExact(s: State, w: Word, io: Stimulus, t: nat)
    requires Valid(s) && Decode(w).Wait?
    ensures var i, r := Decode(w), Step(s, w, io, t);
      var target := i.mantissa * Unit(i.exponent);
      if r.Next? then
        && 0 <= r.cycles - 3 <= WAIT_HARD_CAP
        && (MatchedAt(io, t, i, r.cycles - 3) || (i.mantissa != 0 && r.cycles - 3 == target))
        && (forall j: nat :: j < r.cycles - 3 ==> !MatchedAt(io, t, i, j))
        && (i.mantissa != 0 ==> r.cycles - 3 <= target)
        && (r.state.flag <==> !MatchedAt(io, t, i, r.cycles - 3))
      else i.mantissa == 0 && forall j: nat :: j <= WAIT_HARD_CAP ==> !MatchedAt(io, t, i, j)
  {
    hide Decode, WaitFrom, Unit, Step, MatchedAt;
    var i := Decode(w);
    WaitLeast(io, t, i, i.mantissa * Unit(i.exponent));
    WaitIs(s, w, io, t);
  }

  lemma WaitIs(s: State, w: Word, io: Stimulus, t: nat)
    requires Valid(s) && Decode(w).Wait?
    ensures var k, r := WaitFrom(io, t, Decode(w), 0), Step(s, w, io, t);
      if k < 0 then r == Stuck else r.Next? && r.cycles == 3 + k && r.state.flag == !MatchedAt(io, t, Decode(w), k)
  {
    hide Decode, WaitFrom, Met;
  }

  lemma WaitLeast(io: Stimulus, t: nat, i: Instr, target: int)
    requires i.Wait? && InRange(i) && target == i.mantissa * Unit(i.exponent)
    ensures var k := WaitFrom(io, t, i, 0);
      if k < 0 then i.mantissa == 0 && forall j: nat :: j <= WAIT_HARD_CAP ==> !MatchedAt(io, t, i, j)
      else
        && k <= WAIT_HARD_CAP
        && (MatchedAt(io, t, i, k) || (i.mantissa != 0 && k == target))
        && (forall j: nat :: j < k ==> !MatchedAt(io, t, i, j))
        && (i.mantissa != 0 ==> k <= target)
  {
    TimedTarget(i);
    hide Met, WaitFrom, Unit;
    var k := WaitFrom(io, t, i, 0);
    forall j: nat | !WaitDone(io, t, i, j) ensures !MatchedAt(io, t, i, j) {
    }
    assert i.mantissa != 0 ==> WaitDone(io, t, i, target);
  }

  lemma StepCost(s: State, w: Word, io: Stimulus, t: nat)
    requires Valid(s) && Timed(w)
    ensures var r := Step(s, w, io, t); r.Next? && r.cycles <= WordCost(w)
  {
    if Decode(w).Wait? {
      WaitBounded(s, w, io, t);
    }
  }

  lemma {:induction false} PathCost(prog: Program, io: Stimulus, c: Config, tr: seq<nat>, d: Config)
    requires Valid(c.s) && Path(prog, io, c, tr, d)
    requires forall a :: a in tr ==> Timed(Fetch(prog, a))
    ensures d.t <= c.t + Total(a => WordCost(Fetch(prog, a)), tr)
    decreases |tr|
  {
    if tr == [] {
      assert c == d;
    } else {
      FirstOf(prog, io, c, tr, d);
      var wt: nat -> nat := a => WordCost(Fetch(prog, a));
      assert Total(wt, tr) == WordCost(Fetch(prog, tr[0])) + Total(wt, tr[1..]);
      assert tr[0] in tr;
      hide *;
      var c1 := After(c, Advance(prog, io, c));
      StepCost(c.s, Fetch(prog, c.s.pc), io, c.t + 2);
      AdvanceIs(prog, io, c);
      PathCost(prog, io, c1, tr[1..], d);
    }
  }

  // ------------------------------------------------------------ sticky flags

  predicate IsReserved(prog: Program, a: nat) {
    Opcode(Fetch(prog, a)) >= 21
  }

  /** Over any run, the illegal-opcode flag is set exactly if it was set before or
      a word with a reserved opcode was executed. */
  lemma {:induction false} IllegalFlagExact(prog: Program, io: Stimulus, c: Config, tr: seq<nat>, d: Config)
    requires Valid(c.s) && Path(prog, io, c, tr, d)
    ensures d.s.illegalOp <==> c.s.illegalOp || exists k :: 0 <= k < |tr| && IsReserved(prog, tr[k])
    decreases |tr|
  {
    hide *;
    if tr == [] {
      NothingRun(prog, io, c, d);
    } else {
      FirstOf(prog, io, c, tr, d);
      var c1 := After(c, Advance(prog, io, c));
      IllegalStep(prog, io, c);
      AdvanceIs(prog, io, c);
      IllegalFlagExact(prog, io, c1, tr[1..], d);
      if k :| 0 <= k < |tr| && IsReserved(prog, tr[k]) {
        assert k == 0 || tr[1..][k - 1] == tr[k];
      }
      if k :| 0 <= k < |tr[1..]| && IsReserved(prog, tr[1..][k]) {
        assert tr[1..][k] == tr[k + 1];
      }
    }
  }

  lemma IllegalStep(prog: Program, io: Stimulus, c: Config)
    requires Valid(c.s) && Advance(prog, io, c).Next?
    ensures Advance(prog, io, c).state.illegalOp <==> c.s.illegalOp || IsReserved(prog, c.s.pc)
  {
    var i := Decode(Fetch(prog, c.s.pc));
    assert i.Reserved? <==> IsReserved(prog, c.s.pc);
    hide Decode, IsReserved;
    ExecFlags(c.s, i, io, c.t + 2);
    hide Exec;
  }

  /** What one instruction does to the sticky flags and the pending return. */
  lemma ExecFlags(s: State, i: Instr, io: Stimulus, t: nat)
    requires Valid(s) && InRange(i) && Exec(s, i, io, t).Next?
    ensures var s1 := Exec(s, i, io, t).state;
      && s1.illegalOp == (s.illegalOp || i.Reserved?)
      && if IsCall(i) then s1.returnValid && s1.callRetMisuse == (s.callRetMisuse || s.returnValid)
      else if i.Ret? then !s1.returnValid && s1.callRetMisuse == (s.callRetMisuse || !s.returnValid)
      else s1.returnValid == s.returnValid && s1.callRetMisuse == s.callRetMisuse
  {
    hide DataEffect, Met, WaitFrom, WaitDone;
    if IsData(i) {
      DataFrame(s, i, io(t));
    }
  }

  /** CALL and RET among the executed addresses, in order: true for CALL. */
  function CallsAndReturns(prog: Program, tr: seq<nat>): seq<bool> {
    if tr == [] then []
    else (match Decode(Fetch(prog, tr[0]))
          case Ret => [false]
          case Branch(cond, _) => if cond == COND_CALL then [true] else []
          case _ => []) + CallsAndReturns(prog, tr[1..])
  }

  /** A call sequence that alternates, starting with a RET if one is pending. */
  predicate Alternates(pending: bool, cs: seq<bool>)
    decreases |cs|
  {
    cs == [] || (cs[0] != pending && Alternates(cs[0], cs[1..]))
  }

  /** Over any run, the misuse flag stays clear exactly as long as the executed
      CALLs and RETs alternate, starting with CALL from reset. */
  lemma {:induction false} MisuseFlagExact(prog: Program, io: Stimulus, c: Config, tr: seq<nat>, d: Config)
    requires Valid(c.s) && Path(prog, io, c, tr, d)
    ensures d.s.callRetMisuse <==> c.s.callRetMisuse || !Alternates(c.s.returnValid, CallsAndReturns(prog, tr))
    decreases |tr|
  {
    hide *;
    if tr == [] {
      NothingRun(prog, io, c, d);
    } else {
      FirstOf(prog, io, c, tr, d);
      CallsSplit(prog, tr);
      var c1 := After(c, Advance(prog, io, c));
      AdvanceIs(prog, io, c);
      MisuseStep(c.s, Fetch(prog, c.s.pc), io, c.t + 2);
      MisuseFlagExact(prog, io, c1, tr[1..], d);
      AlternatesStep(c.s.returnValid, prog, tr);
    }
  }

  lemma NothingRun(prog: Program, io: Stimulus, c: Config, d: Config)
    requires Valid(c.s) && Path(prog, io, c, [], d)
    ensures c == d && Alternates(c.s.returnValid, CallsAndReturns(prog, []))
  {
  }

  /** The first instruction of a path. */
  lemma FirstOf(prog: Program, io: Stimulus, c: Config, tr: seq<nat>, d: Config)
    requires Valid(c.s) && tr != [] && Path(prog, io, c, tr, d)
    ensures tr[0] == c.s.pc && !c.s.halted && Advance(prog, io, c).Next?
    ensures Path(prog, io, After(c, Advance(prog, io, c)), tr[1..], d)
  {
    hide Advance;
  }

  lemma AdvanceIs(prog: Program, io: Stimulus, c: Config)
    requires Valid(c.s) && Advance(prog, io, c).Next?
    ensures Advance(prog, io, c) == Step(c.s, Fetch(prog, c.s.pc), io, c.t + 2)
    ensures After(c, Advance(prog, io, c)) == Config(Advance(prog, io, c).state, c.t + Advance(prog, io, c).cycles)
  {
    hide Step;
  }

  /** What the first word adds to the call sequence. */
  lemma CallsSplit(prog: Program, tr: seq<nat>)
    requires tr != []
    ensures var i, rest := Decode(Fetch(prog, tr[0])), CallsAndReturns(prog, tr[1..]);
            CallsAndReturns(prog, tr) == if IsCall(i) then [true] + rest else if i.Ret? then [false] + rest else rest
  {
    var none: seq<bool> := [];
    assert none + CallsAndReturns(prog, tr[1..]) == CallsAndReturns(prog, tr[1..]);
    hide Decode;
  }

  lemma AlternatesStep(pending: bool, prog: Program, tr: seq<nat>)
    requires tr != []
    requires var i, rest := Decode(Fetch(prog, tr[0])), CallsAndReturns(prog, tr[1..]);
             CallsAndReturns(prog, tr) == if IsCall(i) then [true] + rest else if i.Ret? then [false] + rest else rest
    ensures var i, rest := Decode(Fetch(prog, tr[0])), CallsAndReturns(prog, tr[1..]);
            Alternates(pending, CallsAndReturns(prog, tr)) <==>
              if IsCall(i) then !pending && Alternates(true, rest)
              else if i.Ret? then pending && Alternates(false, rest) else Alternates(pending, rest)
  {
    hide Decode, CallsAndReturns;
    var rest := CallsAndReturns(prog, tr[1..]);
    assert ([true] + rest)[1..] == rest && ([false] + rest)[1..] == rest;
  }

  predicate IsCall(i: Instr) {
    i.Branch? && i.cond == COND_CALL
  }

  lemma MisuseStep(s: State, w: Word, io: Stimulus, t: nat)
    requires Valid(s) && Step(s, w, io, t).Next?
    ensures var s1, i := Step(s, w, io, t).state, Decode(w);
      if IsCall(i) then s1.returnValid && s1.callRetMisuse == (s.callRetMisuse || s.returnValid)
      else if i.Ret? then !s1.returnValid && s1.callRetMisuse == (s.callRetMisuse || !s.returnValid)
      else s1.returnValid == s.returnValid && s1.callRetMisuse == s.callRetMisuse
  {
    ExecFlags(s, Decode(w), io, t);
    hide Exec, Decode;
  }
}
