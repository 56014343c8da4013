/** Whole runs of the random generators' programs: they halt with both flags clear, and
    leave the main part only through HALT or a CALL. */
module RandomRuns {
  import opened Bits
  import opened Isa
  import opened Machine
  import opened Runs
  import opened Structured
  import opened Layouts
  import RandomGen

  /** One instruction of the main part. */
  lemma InsideStep(s: State, w: Word, io: Stimulus, t: nat, limit: nat)
    requires Valid(s) && s.pc < limit < 511 && Inside(w, limit) && Step(s, w, io, t).Next?
    ensures IsCall(Decode(w)) || Step(s, w, io, t).state.pc <= limit
  {
    if LeafWord(w) {
      LeafOutcome(s, w, io, t, {});
    } else {
      hide Decode, LeafWord;
    }
  }

  lemma HaltStep(s: State, w: Word, io: Stimulus, t: nat)
    requires Valid(s) && Decode(w) == Halt
    ensures Step(s, w, io, t).Next? && Step(s, w, io, t).state.halted
  {
  }

  /** Only a CALL leads past HALT: an executed address beyond it follows either another
      such address or an executed CALL word. */
  lemma {:induction false} PastHaltOnlyByCall(l: Layout, prog: Program, io: Stimulus, c: Config, tr: seq<nat>,
                                              d: Config, k: nat)
    requires LayoutOk(l) && Laid(l, prog) && Valid(c.s) && Path(prog, io, c, tr, d)
    requires 0 < k < |tr| && tr[k] > HaltAt(l)
    ensures tr[k - 1] > HaltAt(l) || IsCall(Decode(Fetch(prog, tr[k - 1])))
    decreases k
  {
    var c1 := After(c, Advance(prog, io, c));
    if k > 1 {
      hide LayoutOk, Laid, Advance;
      PastHaltOnlyByCall(l, prog, io, c1, tr[1..], d, k - 1);
    } else if tr[0] <= HaltAt(l) {
      FirstStep(prog, io, c, tr, d);
      hide Advance, Path;
      NotPast(l, prog, io, c);
    }
  }

  lemma FirstStep(prog: Program, io: Stimulus, c: Config, tr: seq<nat>, d: Config)
    requires Valid(c.s) && Path(prog, io, c, tr, d) && |tr| > 1
    ensures tr[0] == c.s.pc && Advance(prog, io, c).Next?
    ensures var s := Advance(prog, io, c).state; tr[1] == s.pc && !s.halted
  {
    hide Advance;
    var c1 := After(c, Advance(prog, io, c));
    assert Path(prog, io, c1, tr[1..], d) && tr[1..][0] == tr[1];
  }

  lemma NotPast(l: Layout, prog: Program, io: Stimulus, c: Config)
    requires LayoutOk(l) && Laid(l, prog) && Valid(c.s) && c.s.pc <= HaltAt(l)
    requires Advance(prog, io, c).Next? && !Advance(prog, io, c).state.halted
    ensures IsCall(Decode(Fetch(prog, c.s.pc))) || Advance(prog, io, c).state.pc <= HaltAt(l)
  {
    hide Step, Placed, WellFormed, Decode, Inside;
    var w := Fetch(prog, c.s.pc);
    if c.s.pc == HaltAt(l) {
      HaltStep(c.s, w, io, c.t + 2);
    } else {
      WordsInside(prog, l.items, 0, HaltAt(l), HaltAt(l), SubAt(l), {}, false, l.calls, {}, HaltAt(l), |l.items|,
        c.s.pc);
      InsideStep(c.s, w, io, c.t + 2, HaltAt(l));
    }
  }

  /** What the plain random generator promises of its programs, which its own contract
      says are laid out and of defined opcodes: for all pin activity the run from reset
      ends at HALT with both sticky flags clear. */
  lemma ProgramHalts(words: Program, l: Layout, io: Stimulus, t0: nat) returns (tr: seq<nat>, d: Config)
    requires LayoutOk(l) && Laid(l, words) && RandomGen.AllDefined(words)
    ensures Path(words, io, Config(Reset(), t0), tr, d)
    ensures d.s.halted && !d.s.callRetMisuse && !d.s.illegalOp
  {
    hide LayoutOk, Laid, Path;
    tr, d := LayoutHalts(l, words, io, a => 0, t0);
    IllegalFlagExact(words, io, Config(Reset(), t0), tr, d);
    forall k | 0 <= k < |tr| ensures !IsReserved(words, tr[k]) {
      DefinedFetch(words, tr[k]);
    }
  }

  lemma DefinedFetch(words: Program, a: nat)
    requires RandomGen.AllDefined(words)
    ensures !IsReserved(words, a)
  {
  }
}
