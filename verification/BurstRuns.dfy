/** What the transmit burst of the random generator does on its pin: the bits of the byte, in
    order, each held for one bit period. */
module BurstRuns {
  import opened Bits
  import opened Isa
  import opened Machine
  import opened Runs
  import opened Emission
  import opened RandomGen
  import opened DataLaws

  /** A level of the watched pin, and the cycle from which it holds. */
  datatype Edge = Edge(at: nat, level: Level)

  /** The pin after each instruction of a run. */
  function PinTrace(prog: Program, io: Stimulus, c: Config, tr: seq<nat>, pin: nat): seq<Edge>
    requires Valid(c.s) && pin < 8
    decreases |tr|
  {
    if tr == [] then []
    else
      var r := Advance(prog, io, c);
      if r.Stuck? then []
      else [Edge(After(c, r).t, r.state.pinDrv[pin])] + PinTrace(prog, io, After(c, r), tr[1..], pin)
  }

  lemma {:induction false} TraceAppend(prog: Program, io: Stimulus, c: Config, tr1: seq<nat>, d: Config, tr2: seq<nat>,
                                       pin: nat)
    requires Valid(c.s) && Path(prog, io, c, tr1, d) && pin < 8
    ensures Valid(d.s) && |PinTrace(prog, io, c, tr1, pin)| == |tr1|
    ensures PinTrace(prog, io, c, tr1 + tr2, pin) == PinTrace(prog, io, c, tr1, pin) + PinTrace(prog, io, d, tr2, pin)
    decreases |tr1|
  {
    hide Advance, PinTrace;
    if tr1 == [] {
      assert tr1 + tr2 == tr2;
      NoTrace(prog, io, c, pin);
    } else {
      TraceAppend(prog, io, After(c, Advance(prog, io, c)), tr1[1..], d, tr2, pin);
      assert (tr1 + tr2)[1..] == tr1[1..] + tr2;
      TraceFirst(prog, io, c, tr1, pin);
      TraceFirst(prog, io, c, tr1 + tr2, pin);
    }
  }

  lemma NoTrace(prog: Program, io: Stimulus, c: Config, pin: nat)
    requires Valid(c.s) && pin < 8
    ensures PinTrace(prog, io, c, [], pin) == []
  {
  }

  lemma TraceFirst(prog: Program, io: Stimulus, c: Config, tr: seq<nat>, pin: nat)
    requires Valid(c.s) && pin < 8 && tr != [] && Advance(prog, io, c).Next?
    ensures var r := Advance(prog, io, c);
            PinTrace(prog, io, c, tr, pin) ==
            [Edge(After(c, r).t, r.state.pinDrv[pin])] + PinTrace(prog, io, After(c, r), tr[1..], pin)
  {
    hide Advance;
  }

  /** One instruction is a run. */
  lemma OneStep(prog: Program, io: Stimulus, c: Config, pin: nat)
    requires Live(c) && Advance(prog, io, c).Next? && pin < 8
    ensures var r := Advance(prog, io, c); var d, tr := After(c, r), [c.s.pc];
            && Valid(d.s) && Path(prog, io, c, tr, d) && PinTrace(prog, io, c, tr, pin) == [Edge(d.t, d.s.pinDrv[pin])]
  {
    hide Advance;
    var tr := [c.s.pc];
    assert tr[1..] == [];
  }

  /** The burst's eight words lie at `a`. */
  predicate BurstAt(prog: Program, p: Burst, a: nat) {
    && Decode(Fetch(prog, a)) == Ldi(p.rd, p.data)
    && Decode(Fetch(prog, a + 1)) == SetPin(p.mode, p.pin, 1)
    && Decode(Fetch(prog, a + 2)) == Ldi(p.rc, p.bits)
    && Decode(Fetch(prog, a + 3)) == OutBit(p.rd, p.pin, if p.msbFirst then 1 else 0)
    && Decode(Fetch(prog, a + 4)) == Delay(p.delay, 0)
    && Decode(Fetch(prog, a + 5)) == Shift(p.rd, if p.msbFirst then 0 else 1)
    && Decode(Fetch(prog, a + 6)) == Instr.Loop(a + 3, p.rc)
    && Decode(Fetch(prog, a + 7)) == SetPin(0, p.pin, 1)
  }

  /** An assembled burst block is the burst. */
  lemma BurstLies(p: Burst, i: nat, words: Program, table: Table, a: nat)
    requires GoodBurst(p) && StretchAt(words, table, BareEntries(BurstBlock(p), i), a) && a + 8 < 511
    ensures BurstAt(words, p, a)
  {
    BurstSize(p);
    LoopBlockLies(BurstBlock(p), i, words, table, a);
    hide StretchAt, BareEntries, Decode, Encode, Size, BurstAt, WordsFrom;
    BurstWords(p, words, a);
  }

  lemma BurstWords(p: Burst, words: Program, a: nat)
    requires GoodBurst(p)
    requires var b := BurstBlock(p);
             && WordsFrom(words, a, b.before) && Decode(Fetch(words, a + 2)) == Ldi(b.reg, b.count)
             && WordsFrom(words, a + 3, b.body) && Decode(Fetch(words, a + 6)) == Instr.Loop(a + 3, b.reg)
             && WordsFrom(words, a + 7, b.after)
    ensures BurstAt(words, p, a)
  {
    hide Decode, Encode, Fetch;
    BurstDecoded(p);
    var b := BurstBlock(p);
    WordFrom(words, a, b.before, 0);
    WordFrom(words, a, b.before, 1);
    WordFrom(words, a + 3, b.body, 0);
    WordFrom(words, a + 3, b.body, 1);
    WordFrom(words, a + 3, b.body, 2);
    WordFrom(words, a + 7, b.after, 0);
    hide WordsFrom;
  }

  lemma BurstDecoded(p: Burst)
    requires GoodBurst(p)
    ensures Decode(Encode(Ldi(p.rd, p.data))) == Ldi(p.rd, p.data)
    ensures Decode(Encode(SetPin(p.mode, p.pin, 1))) == SetPin(p.mode, p.pin, 1)
    ensures forall sel :: 0 <= sel < 2 ==> Decode(Encode(OutBit(p.rd, p.pin, sel))) == OutBit(p.rd, p.pin, sel)
    ensures Decode(Encode(Delay(p.delay, 0))) == Delay(p.delay, 0)
    ensures forall dir :: 0 <= dir < 2 ==> Decode(Encode(Shift(p.rd, dir))) == Shift(p.rd, dir)
    ensures Decode(Encode(SetPin(0, p.pin, 1))) == SetPin(0, p.pin, 1)
  {
    hide Decode, Encode;
    DecodeEncode(Ldi(p.rd, p.data));
    DecodeEncode(SetPin(p.mode, p.pin, 1));
    forall sel | 0 <= sel < 2 ensures Decode(Encode(OutBit(p.rd, p.pin, sel))) == OutBit(p.rd, p.pin, sel) {
      DecodeEncode(OutBit(p.rd, p.pin, sel));
    }
    DecodeEncode(Delay(p.delay, 0));
    forall dir | 0 <= dir < 2 ensures Decode(Encode(Shift(p.rd, dir))) == Shift(p.rd, dir) {
      DecodeEncode(Shift(p.rd, dir));
    }
    DecodeEncode(SetPin(0, p.pin, 1));
  }

  /** The `k`-th bit sent. */
  function SentBit(p: Burst, k: nat): Level
    requires k < 8
  {
    Bit(p.data, if p.msbFirst then 7 - k else k)
  }

  /** After `k` shifts the register holds what is left of the byte, at the end it is sent
      from. */
  predicate Left(p: Burst, v: Byte, k: nat) {
    k <= 8 && forall j :: 0 <= j < 8 - k ==> if p.msbFirst then Bit(v, j + k) == Bit(p.data, j)
      else Bit(v, j) == Bit(p.data, j + k)
  }

  /** At the top of the loop, `k` bits sent. */
  predicate AtBit(p: Burst, a: nat, c: Config, k: nat) {
    && GoodBurst(p) && Live(c) && c.s.pc == a + 3 && k < p.bits && c.s.regs[p.rc] == p.bits - k
    && Left(p, c.s.regs[p.rd], k)
  }

  predicate OtherPins(s: State, r: State, pin: nat) {
    && |s.pinDrv| == |r.pinDrv| == 8
    && forall q :: 0 <= q < 8 && q != pin ==> r.pinDrv[q] == s.pinDrv[q]
  }

  /** OUTB. */
  lemma DriveStep(prog: Program, p: Burst, a: nat, io: Stimulus, c: Config, k: nat) returns (d: Config)
    requires AtBit(p, a, c, k) && a + 8 < 511
    requires Decode(Fetch(prog, a + 3)) == OutBit(p.rd, p.pin, if p.msbFirst then 1 else 0)
    ensures Live(d) && d.s.pc == a + 4 && d.s.regs == c.s.regs && d.t == c.t + 3 && OtherPins(c.s, d.s, p.pin)
    ensures d.s.pinDrv[p.pin] == SentBit(p, k)
    ensures Path(prog, io, c, [a + 3], d) && PinTrace(prog, io, c, [a + 3], p.pin) == [Edge(d.t, SentBit(p, k))]
  {
    OutBitLaw(c.s, Fetch(prog, c.s.pc), io, c.t + 2, p.rd, p.pin, if p.msbFirst then 1 else 0);
    hide Decode, Step, Bit, Path, PinTrace, Left, Fetch;
    LeftEnd(p, c.s.regs[p.rd], k);
    OneStep(prog, io, c, p.pin);
    d := After(c, Advance(prog, io, c));
  }

  lemma LeftEnd(p: Burst, v: Byte, k: nat)
    requires k < 8 && Left(p, v, k)
    ensures Bit(v, if p.msbFirst then 7 else 0) == SentBit(p, k)
  {
    hide Bit;
    if p.msbFirst {
      assert Bit(v, 7 - k + k) == Bit(p.data, 7 - k);
    } else {
      assert Bit(v, 0) == Bit(p.data, 0 + k);
    }
  }

  /** DELAY. */
  lemma HoldStep(prog: Program, p: Burst, a: nat, io: Stimulus, c: Config) returns (d: Config)
    requires GoodBurst(p) && a + 8 < 511 && Live(c) && c.s.pc == a + 4
    requires Decode(Fetch(prog, a + 4)) == Delay(p.delay, 0)
    ensures Live(d) && d.s.pc == a + 5 && d.s.regs == c.s.regs && d.s.pinDrv == c.s.pinDrv && d.t == c.t + 3 + p.delay
    ensures Path(prog, io, c, [a + 4], d) && PinTrace(prog, io, c, [a + 4], p.pin) == [Edge(d.t, c.s.pinDrv[p.pin])]
  {
    DelayLaw(c.s, Fetch(prog, c.s.pc), io, c.t + 2, p.delay, 0);
    hide Decode, Step, Path, PinTrace, Fetch;
    OneStep(prog, io, c, p.pin);
    d := After(c, Advance(prog, io, c));
  }

  /** SHIFT. */
  lemma ShiftStep(prog: Program, p: Burst, a: nat, io: Stimulus, c: Config, k: nat) returns (d: Config)
    requires GoodBurst(p) && a + 8 < 511 && Live(c) && c.s.pc == a + 5
    requires Decode(Fetch(prog, a + 5)) == Shift(p.rd, if p.msbFirst then 0 else 1)
    requires k < 8 && Left(p, c.s.regs[p.rd], k)
    ensures Live(d) && d.s.pc == a + 6 && d.s.regs[p.rc] == c.s.regs[p.rc] && Left(p, d.s.regs[p.rd], k + 1)
    ensures d.s.pinDrv == c.s.pinDrv && d.t == c.t + 3
    ensures Path(prog, io, c, [a + 5], d) && PinTrace(prog, io, c, [a + 5], p.pin) == [Edge(d.t, c.s.pinDrv[p.pin])]
  {
    ShiftLaw(c.s, Fetch(prog, c.s.pc), io, c.t + 2, p.rd, if p.msbFirst then 0 else 1);
    hide Decode, Step, Bit, Path, PinTrace, Left, Fetch;
    OneStep(prog, io, c, p.pin);
    d := After(c, Advance(prog, io, c));
    LeftNext(p, c.s.regs[p.rd], d.s.regs[p.rd], k);
  }

  lemma LeftNext(p: Burst, v: Byte, w: Byte, k: nat)
    requires k < 8 && Left(p, v, k)
    requires forall j :: 0 <= j < 8 ==>
               Bit(w, j) == if p.msbFirst then (if j == 0 then 0 else Bit(v, j - 1))
                 else (if j == 7 then 0 else Bit(v, j + 1))
    ensures Left(p, w, k + 1)
  {
    hide Bit;
    forall j | 0 <= j < 8 - (k + 1)
      ensures if p.msbFirst then Bit(w, j + (k + 1)) == Bit(p.data, j) else Bit(w, j) == Bit(p.data, j + (k + 1))
    {
      if p.msbFirst {
        assert Bit(v, j + k) == Bit(p.data, j);
        assert Bit(w, j + (k + 1)) == Bit(v, j + k);
      } else {
        assert Bit(v, j + 1) == Bit(p.data, j + 1 + k);
      }
    }
  }

  /** LOOP. */
  lemma CountStep(prog: Program, p: Burst, a: nat, io: Stimulus, c: Config, n: nat) returns (d: Config)
    requires GoodBurst(p) && a + 8 < 511 && Live(c) && c.s.pc == a + 6
    requires Decode(Fetch(prog, a + 6)) == Instr.Loop(a + 3, p.rc)
    requires c.s.regs[p.rc] == n >= 1
    ensures Live(d) && d.s.pc == (if n == 1 then a + 7 else a + 3) && d.s.regs[p.rc] == n - 1
    ensures d.s.regs[p.rd] == c.s.regs[p.rd] && d.s.pinDrv == c.s.pinDrv && d.t == c.t + 3
    ensures Path(prog, io, c, [a + 6], d) && PinTrace(prog, io, c, [a + 6], p.pin) == [Edge(d.t, c.s.pinDrv[p.pin])]
  {
    LoopLaw(c.s, Fetch(prog, c.s.pc), io, c.t + 2, a + 3, p.rc);
    hide Decode, Step, Path, PinTrace, Fetch;
    OneStep(prog, io, c, p.pin);
    d := After(c, Advance(prog, io, c));
  }

  /** The four instructions of one bit hold the pin at it. */
  function Period(p: Burst, k: nat, t: nat): (w: seq<Edge>)
    requires k < 8
    ensures |w| == 4
  {
    var b := SentBit(p, k);
    [Edge(t + 3, b), Edge(t + 6 + p.delay, b), Edge(t + 9 + p.delay, b), Edge(t + 12 + p.delay, b)]
  }

  lemma Joined(prog: Program, io: Stimulus, c: Config, tr1: seq<nat>, d: Config, tr2: seq<nat>, e: Config, pin: nat)
    requires Valid(c.s) && Path(prog, io, c, tr1, d) && Valid(d.s) && Path(prog, io, d, tr2, e) && pin < 8
    ensures Path(prog, io, c, tr1 + tr2, e)
    ensures PinTrace(prog, io, c, tr1 + tr2, pin) == PinTrace(prog, io, c, tr1, pin) + PinTrace(prog, io, d, tr2, pin)
  {
    hide Path, PinTrace;
    PathAppend(prog, io, c, tr1, d, tr2, e);
    TraceAppend(prog, io, c, tr1, d, tr2, pin);
  }

  lemma OneBit(prog: Program, p: Burst, a: nat, io: Stimulus, c: Config, k: nat) returns (tr: seq<nat>, d: Config)
    requires GoodBurst(p) && BurstAt(prog, p, a) && a + 8 < 511 && AtBit(p, a, c, k)
    ensures Path(prog, io, c, tr, d) && PinTrace(prog, io, c, tr, p.pin) == Period(p, k, c.t)
    ensures Live(d) && d.t == c.t + 12 + p.delay && OtherPins(c.s, d.s, p.pin)
    ensures if k + 1 < p.bits then AtBit(p, a, d, k + 1) else d.s.pc == a + 7
  {
    hide *;
    BurstBits(prog, p, a);
    AtBitIs(p, a, c, k);
    var c1 := DriveAndHold(prog, p, a, io, c, k);
    d := ShiftAndCount(prog, p, a, io, c1, k);
    Joined(prog, io, c, [a + 3, a + 4], c1, [a + 5, a + 6], d, p.pin);
    tr := [a + 3, a + 4] + [a + 5, a + 6];
    BitOver(p, a, c, c1, d, k);
  }

  lemma BurstBits(prog: Program, p: Burst, a: nat)
    requires BurstAt(prog, p, a)
    ensures Decode(Fetch(prog, a + 3)) == OutBit(p.rd, p.pin, if p.msbFirst then 1 else 0)
    ensures Decode(Fetch(prog, a + 4)) == Delay(p.delay, 0)
    ensures Decode(Fetch(prog, a + 5)) == Shift(p.rd, if p.msbFirst then 0 else 1)
    ensures Decode(Fetch(prog, a + 6)) == Instr.Loop(a + 3, p.rc)
  {
    hide Decode, Fetch;
  }

  lemma AtBitIs(p: Burst, a: nat, c: Config, k: nat)
    requires AtBit(p, a, c, k)
    ensures GoodBurst(p) && p.pin < 8 && p.bits <= 8 && p.rd < 4 && p.rc < 4 && k < p.bits
    ensures Live(c) && Valid(c.s) && c.s.pc == a + 3 && Left(p, c.s.regs[p.rd], k) && c.s.regs[p.rc] == p.bits - k
  {
    hide Left;
  }

  /** The bit is on the pin for its delay. */
  lemma DriveAndHold(prog: Program, p: Burst, a: nat, io: Stimulus, c: Config, k: nat) returns (d: Config)
    requires AtBit(p, a, c, k) && a + 8 < 511
    requires Decode(Fetch(prog, a + 3)) == OutBit(p.rd, p.pin, if p.msbFirst then 1 else 0)
    requires Decode(Fetch(prog, a + 4)) == Delay(p.delay, 0)
    ensures k < 8 && p.pin < 8 && Valid(c.s) && Live(d) && d.s.pc == a + 5 && d.s.regs == c.s.regs
    ensures d.t == c.t + 6 + p.delay && OtherPins(c.s, d.s, p.pin) && d.s.pinDrv[p.pin] == SentBit(p, k)
    ensures Path(prog, io, c, [a + 3, a + 4], d)
    ensures PinTrace(prog, io, c, [a + 3, a + 4], p.pin)
            == [Edge(c.t + 3, SentBit(p, k)), Edge(c.t + 6 + p.delay, SentBit(p, k))]
  {
    hide Left, Path, PinTrace, SentBit, Decode, Fetch;
    var c1 := DriveStep(prog, p, a, io, c, k);
    d := HoldStep(prog, p, a, io, c1);
    Joined(prog, io, c, [a + 3], c1, [a + 4], d, p.pin);
    assert [a + 3] + [a + 4] == [a + 3, a + 4];
  }

  /** And the next one moves up. */
  lemma ShiftAndCount(prog: Program, p: Burst, a: nat, io: Stimulus, c: Config, k: nat) returns (d: Config)
    requires GoodBurst(p) && a + 8 < 511 && Live(c) && c.s.pc == a + 5 && k < p.bits
    requires Left(p, c.s.regs[p.rd], k) && c.s.regs[p.rc] == p.bits - k
    requires Decode(Fetch(prog, a + 5)) == Shift(p.rd, if p.msbFirst then 0 else 1)
    requires Decode(Fetch(prog, a + 6)) == Instr.Loop(a + 3, p.rc)
    ensures p.pin < 8 && Valid(c.s) && Live(d) && d.s.pinDrv == c.s.pinDrv && d.t == c.t + 6
    ensures if k + 1 < p.bits then AtBit(p, a, d, k + 1) else d.s.pc == a + 7
    ensures Path(prog, io, c, [a + 5, a + 6], d)
    ensures PinTrace(prog, io, c, [a + 5, a + 6], p.pin)
            == [Edge(c.t + 3, c.s.pinDrv[p.pin]), Edge(c.t + 6, c.s.pinDrv[p.pin])]
  {
    hide Left, Path, PinTrace, Decode, Fetch;
    var c1 := ShiftStep(prog, p, a, io, c, k);
    d := CountStep(prog, p, a, io, c1, p.bits - k);
    Joined(prog, io, c, [a + 5], c1, [a + 6], d, p.pin);
    assert [a + 5] + [a + 6] == [a + 5, a + 6];
  }

  lemma BitOver(p: Burst, a: nat, c: Config, c1: Config, d: Config, k: nat)
    requires k < 8 && p.pin < 8 && OtherPins(c.s, c1.s, p.pin) && d.s.pinDrv == c1.s.pinDrv
    ensures OtherPins(c.s, d.s, p.pin)
    ensures var b := SentBit(p, k);
            [Edge(c.t + 3, b), Edge(c.t + 6 + p.delay, b)] + [Edge(c.t + 9 + p.delay, b), Edge(c.t + 12 + p.delay, b)]
            == Period(p, k, c.t)
  {
    hide SentBit;
  }

  /** From bit `k` on. */
  function Wave(p: Burst, k: nat, t: nat): (w: seq<Edge>)
    requires k <= p.bits <= 8
    ensures |w| == 4 * (p.bits - k)
    decreases p.bits - k
  {
    if k == p.bits then [] else Period(p, k, t) + Wave(p, k + 1, t + 12 + p.delay)
  }

  lemma {:induction false} BitsFrom(prog: Program, p: Burst, a: nat, io: Stimulus, c: Config, k: nat)
    returns (tr: seq<nat>, d: Config)
    requires GoodBurst(p) && BurstAt(prog, p, a) && a + 8 < 511 && AtBit(p, a, c, k)
    ensures Path(prog, io, c, tr, d) && PinTrace(prog, io, c, tr, p.pin) == Wave(p, k, c.t)
    ensures Live(d) && d.s.pc == a + 7 && d.t == c.t + (p.bits - k) * (12 + p.delay) && OtherPins(c.s, d.s, p.pin)
    decreases p.bits - k
  {
    hide BurstAt, Path, PinTrace, Period, Left;
    var tr1, c1 := OneBit(prog, p, a, io, c, k);
    if k + 1 < p.bits {
      var tr2;
      tr2, d := BitsFrom(prog, p, a, io, c1, k + 1);
      Joined(prog, io, c, tr1, c1, tr2, d, p.pin);
      tr := tr1 + tr2;
      assert (p.bits - k) * (12 + p.delay) == 12 + p.delay + (p.bits - (k + 1)) * (12 + p.delay);
    } else {
      tr, d := tr1, c1;
      assert Wave(p, k + 1, c.t + 12 + p.delay) == [];
      assert (p.bits - k) * (12 + p.delay) == 12 + p.delay;
    }
  }

  /** LDI. */
  lemma LdiStep(prog: Program, io: Stimulus, c: Config, rd: nat, value: nat, pin: nat) returns (d: Config)
    requires Live(c) && c.s.pc < 511 && Decode(Fetch(prog, c.s.pc)) == Ldi(rd, value) && pin < 8
    ensures rd < 4 && Live(d) && d.s.pc == c.s.pc + 1 && d.t == c.t + 3 && d.s.regs[rd] == value
    ensures d.s.pinDrv == c.s.pinDrv && d.s.pinMode == c.s.pinMode
    ensures forall k :: 0 <= k < 4 && k != rd ==> d.s.regs[k] == c.s.regs[k]
    ensures Path(prog, io, c, [c.s.pc], d) && PinTrace(prog, io, c, [c.s.pc], pin) == [Edge(d.t, d.s.pinDrv[pin])]
  {
    MoveLaws(c.s, Fetch(prog, c.s.pc), io, c.t + 2);
    hide Decode, Step, Path, PinTrace, Fetch;
    OneStep(prog, io, c, pin);
    d := After(c, Advance(prog, io, c));
  }

  /** SET, with the level the idle pin has. */
  lemma SetStep(prog: Program, io: Stimulus, c: Config, mode: nat, pin: nat) returns (d: Config)
    requires Live(c) && c.s.pc < 511 && Decode(Fetch(prog, c.s.pc)) == SetPin(mode, pin, 1)
    ensures mode < 4 && pin < 8 && Live(d) && d.s.pc == c.s.pc + 1 && d.t == c.t + 3 && d.s.regs == c.s.regs
    ensures OtherPins(c.s, d.s, pin) && d.s.pinMode[pin] == if mode == 0 then c.s.pinMode[pin] else mode
    ensures d.s.pinDrv[pin] == 1
    ensures Path(prog, io, c, [c.s.pc], d) && PinTrace(prog, io, c, [c.s.pc], pin) == [Edge(d.t, 1)]
  {
    SetLaw(c.s, Fetch(prog, c.s.pc), io, c.t + 2, mode, pin, 1);
    hide Decode, Step, Path, PinTrace, Fetch;
    OneStep(prog, io, c, pin);
    d := After(c, Advance(prog, io, c));
  }

  lemma LeftAll(p: Burst)
    requires p.data < 256
    ensures Left(p, p.data, 0)
  {
  }

  /** LDI, SET, LDI. */
  lemma Head(prog: Program, p: Burst, a: nat, io: Stimulus, c: Config) returns (tr: seq<nat>, d: Config)
    requires GoodBurst(p) && BurstAt(prog, p, a) && a + 8 < 511 && Live(c) && c.s.pc == a
    ensures Path(prog, io, c, tr, d) && d.t == c.t + 9 && OtherPins(c.s, d.s, p.pin) && AtBit(p, a, d, 0)
    ensures PinTrace(prog, io, c, tr, p.pin) == [Edge(c.t + 3, c.s.pinDrv[p.pin]), Edge(c.t + 6, 1), Edge(c.t + 9, 1)]
    ensures d.s.pinMode[p.pin] == p.mode
  {
    hide Decode, Path, PinTrace, Fetch, Left;
    var c1 := LdiStep(prog, io, c, p.rd, p.data, p.pin);
    var c2 := SetStep(prog, io, c1, p.mode, p.pin);
    d := LdiStep(prog, io, c2, p.rc, p.bits, p.pin);
    LeftAll(p);
    Joined(prog, io, c, [a], c1, [a + 1], c2, p.pin);
    Joined(prog, io, c, [a] + [a + 1], c2, [a + 2], d, p.pin);
    tr := [a] + [a + 1] + [a + 2];
  }

  /** Bit `j` of the transmission that began at cycle `t`: driven for a whole bit period. */
  predicate BitDriven(p: Burst, w: seq<Edge>, j: nat, t: nat) {
    && j < 8 && 4 * j + 6 < |w|
    && var b, at := Bit(p.data, if p.msbFirst then 7 - j else j), t + 12 + j * (12 + p.delay);
       w[4 * j + 3] == Edge(at, b) && w[4 * j + 4].level == b && w[4 * j + 5].level == b
       && w[4 * j + 6] == Edge(at + 9 + p.delay, b)
  }

  lemma {:induction false} WaveAt(p: Burst, k: nat, t: nat, j: nat)
    requires k <= j < p.bits <= 8
    ensures 4 * (j - k) + 3 < |Wave(p, k, t)|
    ensures Wave(p, k, t)[4 * (j - k)..4 * (j - k) + 4] == Period(p, j, t + (j - k) * (12 + p.delay))
    decreases j - k
  {
    hide Period;
    if k < j {
      var later, n := Wave(p, k + 1, t + 12 + p.delay), 4 * (j - (k + 1));
      WaveAt(p, k + 1, t + 12 + p.delay, j);
      assert (j - k) * (12 + p.delay) == 12 + p.delay + (j - (k + 1)) * (12 + p.delay);
      assert Wave(p, k, t)[n + 4..n + 8] == later[n..n + 4];
    }
  }

  /** Wherever it is reached, under any pins: the burst raises its pin, drives the bits of the
      byte in order from the chosen end, each from its own bit period's start to its end,
      and raises the pin again; no other pin moves. */
  lemma BurstDrives(prog: Program, p: Burst, a: nat, io: Stimulus, c: Config) returns (tr: seq<nat>, d: Config)
    requires GoodBurst(p) && BurstAt(prog, p, a) && a + 8 < 511 && Live(c) && c.s.pc == a
    ensures Path(prog, io, c, tr, d) && Live(d) && d.s.pc == a + 8 && OtherPins(c.s, d.s, p.pin)
    ensures d.t == c.t + 12 + p.bits * (12 + p.delay)
    ensures var w := PinTrace(prog, io, c, tr, p.pin);
            && |w| == 4 + 4 * p.bits && w[1] == Edge(c.t + 6, 1) && w[2].level == 1 && w[|w| - 1] == Edge(d.t, 1)
            && forall j :: 0 <= j < p.bits ==> BitDriven(p, w, j, c.t)
  {
    hide Path, PinTrace, Wave, Left, Decode, Fetch, BitDriven;
    var tr1, c1 := Head(prog, p, a, io, c);
    var tr2, c2 := BitsFrom(prog, p, a, io, c1, 0);
    d := SetStep(prog, io, c2, 0, p.pin);
    Joined(prog, io, c, tr1, c1, tr2, c2, p.pin);
    Joined(prog, io, c, tr1 + tr2, c2, [a + 7], d, p.pin);
    tr := tr1 + tr2 + [a + 7];
    WaveLevels(p, c.t, [Edge(c.t + 3, c.s.pinDrv[p.pin]), Edge(c.t + 6, 1), Edge(c.t + 9, 1)], Edge(d.t, 1));
  }

  /** The three parts of the trace by their places. */
  lemma WaveLevels(p: Burst, t: nat, head: seq<Edge>, last: Edge)
    requires p.bits <= 8 && |head| == 3
    ensures var w := head + Wave(p, 0, t + 9) + [last];
            && |w| == 4 + 4 * p.bits && w[1] == head[1] && w[2] == head[2] && w[|w| - 1] == last
            && forall j :: 0 <= j < p.bits ==> BitDriven(p, w, j, t)
  {
    hide Wave, BitDriven;
    var w := head + Wave(p, 0, t + 9) + [last];
    forall j | 0 <= j < p.bits ensures BitDriven(p, w, j, t) {
      WaveDriven(p, t, head, last, j);
    }
  }

  lemma WaveDriven(p: Burst, t: nat, head: seq<Edge>, last: Edge, j: nat)
    requires j < p.bits <= 8 && |head| == 3
    ensures BitDriven(p, head + Wave(p, 0, t + 9) + [last], j, t)
  {
    hide Wave, Bit;
    var wave, at := Wave(p, 0, t + 9), t + 9 + j * (12 + p.delay);
    FromStart(p, t + 9, j);
    Inside(head, wave, last, j, Period(p, j, at));
  }

  lemma FromStart(p: Burst, t: nat, j: nat)
    requires j < p.bits <= 8
    ensures 4 * j + 4 <= |Wave(p, 0, t)| && Wave(p, 0, t)[4 * j..4 * j + 4] == Period(p, j, t + j * (12 + p.delay))
  {
    hide Period;
    WaveAt(p, 0, t, j);
    var d := j - 0;
    assert d == j;
    assert d * (12 + p.delay) == j * (12 + p.delay);
  }

  lemma Inside(head: seq<Edge>, wave: seq<Edge>, last: Edge, j: nat, period: seq<Edge>)
    requires |head| == 3 && 4 * j + 4 <= |wave| && wave[4 * j..4 * j + 4] == period
    ensures var w := head + wave + [last];
            && 4 * j + 6 < |w| && w[4 * j + 3] == period[0] && w[4 * j + 4] == period[1]
            && w[4 * j + 5] == period[2] && w[4 * j + 6] == period[3]
  {
  }
}
