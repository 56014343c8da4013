/** Runs of concrete firmware: single steps on the registers, the flag and the data
    memory, and the bytes it presents to the host. */
module FirmwareRuns {
  import opened Bits
  import opened Isa
  import opened Machine
  import opened Runs

  /** The bytes put on the output port along a path. */
  function Outputs(prog: Program, io: Stimulus, c: Config, tr: seq<nat>): seq<Byte>
    requires Valid(c.s)
    decreases |tr|
  {
    if tr == [] then []
    else
      var r := Advance(prog, io, c);
      if r.Stuck? then []
      else (if Decode(Fetch(prog, c.s.pc)).Out? then [r.state.uoOut] else []) + Outputs(prog, io, After(c, r), tr[1..])
  }

  /** Some path leads from `c` to `d` and presents exactly `outs`. */
  ghost predicate Reaches(prog: Program, io: Stimulus, c: Config, d: Config, outs: seq<Byte>) {
    Valid(c.s) && exists tr :: Path(prog, io, c, tr, d) && Outputs(prog, io, c, tr) == outs
  }

  lemma ReachesSelf(prog: Program, io: Stimulus, c: Config)
    requires Valid(c.s)
    ensures Reaches(prog, io, c, c, [])
  {
    assert Path(prog, io, c, [], c) && Outputs(prog, io, c, []) == [];
  }

  lemma ReachesOne(prog: Program, io: Stimulus, c: Config)
    requires Live(c) && Advance(prog, io, c).Next?
    ensures var r := Advance(prog, io, c);
            Reaches(prog, io, c, After(c, r), if Decode(Fetch(prog, c.s.pc)).Out? then [r.state.uoOut] else [])
  {
    var r := Advance(prog, io, c);
    var d := After(c, r);
    hide Advance, Decode;
    var tr := [c.s.pc];
    assert tr[1..] == [];
    assert Path(prog, io, c, tr, d);
    var out := if Decode(Fetch(prog, c.s.pc)).Out? then [r.state.uoOut] else [];
    assert Outputs(prog, io, c, tr) == out + Outputs(prog, io, d, []) == out;
  }

  lemma {:induction false} OutputsAppend(prog: Program, io: Stimulus, c: Config, tr1: seq<nat>, d: Config,
                                         tr2: seq<nat>)
    requires Valid(c.s) && Path(prog, io, c, tr1, d)
    ensures Valid(d.s) && Outputs(prog, io, c, tr1 + tr2) == Outputs(prog, io, c, tr1) + Outputs(prog, io, d, tr2)
    decreases |tr1|
  {
    hide Advance, Decode, Outputs;
    if tr1 == [] {
      assert tr1 + tr2 == tr2;
      NoOutputs(prog, io, c);
    } else {
      OutputsAppend(prog, io, After(c, Advance(prog, io, c)), tr1[1..], d, tr2);
      assert (tr1 + tr2)[1..] == tr1[1..] + tr2;
      OutputsFirst(prog, io, c, tr1);
      OutputsFirst(prog, io, c, tr1 + tr2);
    }
  }

  lemma NoOutputs(prog: Program, io: Stimulus, c: Config)
    requires Valid(c.s)
    ensures Outputs(prog, io, c, []) == []
  {
  }

  lemma OutputsFirst(prog: Program, io: Stimulus, c: Config, tr: seq<nat>)
    requires Valid(c.s) && tr != [] && Advance(prog, io, c).Next?
    ensures Outputs(prog, io, c, tr) ==
            (if Decode(Fetch(prog, c.s.pc)).Out? then [Advance(prog, io, c).state.uoOut] else [])
            + Outputs(prog, io, After(c, Advance(prog, io, c)), tr[1..])
  {
    hide Advance, Decode, After;
  }

  lemma ReachesThen(prog: Program, io: Stimulus, c: Config, d: Config, e: Config, outs1: seq<Byte>, outs2: seq<Byte>)
    requires Reaches(prog, io, c, d, outs1) && Reaches(prog, io, d, e, outs2)
    ensures Reaches(prog, io, c, e, outs1 + outs2)
  {
    var tr1 :| Path(prog, io, c, tr1, d) && Outputs(prog, io, c, tr1) == outs1;
    var tr2 :| Path(prog, io, d, tr2, e) && Outputs(prog, io, d, tr2) == outs2;
    PathAppend(prog, io, c, tr1, d, tr2, e);
    OutputsAppend(prog, io, c, tr1, d, tr2);
    assert Path(prog, io, c, tr1 + tr2, e);
  }

  // ------------------------------------------------------------ register steps

  /** What the firmware idioms depend on. */
  datatype Core = Core(pc: nat, regs: seq<Byte>, flag: bool)

  predicate CoreOk(k: Core, mem: seq<Byte>) {
    k.pc < 511 && |k.regs| == 4 && |mem| == DATA_BYTES
  }

  predicate AtCore(c: Config, k: Core, mem: seq<Byte>) {
    && Live(c) && c.s.pc == k.pc && c.s.regs == k.regs && c.s.flag == k.flag && c.s.dataMem == mem
  }

  /** Instructions on registers, flag and data memory alone. */
  predicate Plain(i: Instr) {
    || i.Ldi? || i.XorReg? || i.Add? || i.TestBit? || i.Shift? || i.Load? || i.LoadX? || i.Loop?
    || (i.Branch? && i.cond != COND_CALL)
  }

  function At(regs: seq<Byte>, rd: int): (v: int)
    requires |regs| == 4 && 0 <= rd < 4
    ensures 0 <= v < 256
  {
    regs[rd]
  }

  function CoreStep(k: Core, i: Instr, mem: seq<Byte>): (r: Core)
    requires CoreOk(k, mem) && InRange(i) && Plain(i)
    ensures |r.regs| == 4
  {
    var next := k.pc + 1;
    match i
    case Ldi(rd, value) => Core(next, k.regs[rd := value], k.flag)
    case XorReg(rd, rs) =>
      XorByte(At(k.regs, rd), At(k.regs, rs));
      Core(next, k.regs[rd := Xor(At(k.regs, rd), At(k.regs, rs))], k.flag)
    case Add(rd, rs) =>
      Core(next, k.regs[rd := (At(k.regs, rd) + At(k.regs, rs)) % 256], At(k.regs, rd) + At(k.regs, rs) > 255)
    case TestBit(rd, bit) => Core(next, k.regs, Bit(At(k.regs, rd), bit) == 1)
    case Shift(rd, dir) =>
      Core(next, k.regs[rd := if dir == SHIFT_LEFT then (At(k.regs, rd) * 2) % 256 else At(k.regs, rd) / 2], k.flag)
    case Load(rd, offset) => Core(next, k.regs[rd := mem[offset]], k.flag)
    case LoadX(rd, rs) => Core(next, k.regs[rd := mem[At(k.regs, rs)]], k.flag)
    case Loop(addr, rd) =>
      var count := (At(k.regs, rd) - 1) % 256;
      Core(if count != 0 then addr else next, k.regs[rd := count], k.flag)
    case Branch(cond, addr) =>
      Core(if cond == COND_JMP || (cond == COND_BEQ && k.flag) || (cond == COND_BNE && !k.flag) then addr
        else next, k.regs, k.flag)
    case _ => k
  }

  /** Such an instruction does to the machine what `CoreStep` says, in three cycles,
      without touching memory and without an output. */
  lemma PlainStep(prog: Program, io: Stimulus, c: Config, k: Core, mem: seq<Byte>, i: Instr) returns (d: Config)
    requires AtCore(c, k, mem) && CoreOk(k, mem) && Plain(i) && i == Decode(Fetch(prog, k.pc))
    ensures AtCore(d, CoreStep(k, i, mem), mem) && Reaches(prog, io, c, d, []) && d.t == c.t + 3
  {
    var r := Advance(prog, io, c);
    hide Decode, Fetch;
    PlainExec(c.s, k, mem, i, io, c.t + 2);
    d := After(c, r);
    ReachesOne(prog, io, c);
  }

  lemma PlainExec(s: State, k: Core, mem: seq<Byte>, i: Instr, io: Stimulus, t: nat)
    requires Valid(s) && !s.halted && s.pc == k.pc && s.regs == k.regs && s.flag == k.flag && s.dataMem == mem
    requires CoreOk(k, mem) && InRange(i) && Plain(i)
    ensures var r := Exec(s, i, io, t);
            && r.Next? && r.cycles == 3
            && !r.state.halted && r.state.dataMem == mem
            && var k1 := CoreStep(k, i, mem);
            r.state.pc == k1.pc && r.state.regs == k1.regs && r.state.flag == k1.flag
  {
    hide Xor, Bit;
    match i
    case Ldi(_, _) =>
    case XorReg(_, _) =>
    case Add(_, _) =>
    case TestBit(_, _) =>
    case Shift(_, _) =>
    case Load(_, _) =>
    case LoadX(_, _) =>
    case Loop(_, _) =>
    case Branch(_, _) =>
  }

  // ------------------------------------------------------------ the send handshake

  const GO: nat := 4
  const STATUS: nat := 5

  /** The host answers: each time the run from `c` comes to a wait for HOST_GO, the host
      drives the awaited level within the machine's patience. It owes nothing else, and
      nothing any more once the program waits no more. */
  ghost predicate Attends(prog: Program, io: Stimulus, c: Config) {
    forall d: Config, outs: seq<Byte> :: Reaches(prog, io, c, d, outs) ==> AnsweredAt(prog, io, d)
  }

  ghost predicate AnsweredAt(prog: Program, io: Stimulus, d: Config) {
    var i := Decode(Fetch(prog, d.s.pc));
    Live(d) && AwaitsGo(i) ==> Answers(io, d.t + 2, i.level)
  }

  predicate AwaitsGo(i: Instr) {
    i.Wait? && i.pin == GO && i.mantissa == 0
  }

  ghost predicate Answers(io: Stimulus, t: nat, level: Level) {
    exists k: nat :: k <= WAIT_HARD_CAP && MetAfter(io, t, level, k)
  }

  predicate MetAfter(io: Stimulus, t: nat, level: Level, k: nat) {
    Met(io, t + k, GO, level)
  }

  /** Firmware to host: wait for the request, present the register, acknowledge, wait for
      the release, clear. */
  function SendCode(rd: nat): (code: seq<Instr>)
    ensures |code| == 5
  {
    [Wait(GO, 1, 0, 0), Out(rd), SetPin(SET_MODE_LEAVE, STATUS, 1), Wait(GO, 0, 0, 0),
      SetPin(SET_MODE_LEAVE, STATUS, 0)]
  }

  predicate CodeAt(prog: Program, a: nat, code: seq<Instr>) {
    forall j :: 0 <= j < |code| ==> InstrAt(prog, a, code, j)
  }

  predicate InstrAt(prog: Program, a: nat, code: seq<Instr>, j: nat)
    requires j < |code|
  {
    Decode(Fetch(prog, a + j)) == code[j]
  }

  lemma AttendsNow(prog: Program, io: Stimulus, c: Config, k: Core, mem: seq<Byte>)
    requires Attends(prog, io, c) && AtCore(c, k, mem)
    ensures AnsweredAt(prog, io, c)
  {
    ReachesSelf(prog, io, c);
    hide Reaches, AnsweredAt;
  }

  /** A host that answers from `c` on answers from every later point on. */
  lemma AttendsLater(prog: Program, io: Stimulus, c: Config, d: Config, outs: seq<Byte>)
    requires Attends(prog, io, c) && Reaches(prog, io, c, d, outs)
    ensures Attends(prog, io, d)
  {
    hide Reaches, AnsweredAt;
    forall e: Config, more: seq<Byte> | Reaches(prog, io, d, e, more) ensures AnsweredAt(prog, io, e) {
      ReachesThen(prog, io, c, d, e, outs, more);
    }
  }

  /** One handshake instruction: no register moves, and only OUT is an output. */
  lemma HandshakeStep(prog: Program, io: Stimulus, c: Config, k: Core, mem: seq<Byte>, i: Instr)
    returns (d: Config, flag: bool)
    requires AtCore(c, k, mem) && CoreOk(k, mem) && i == Decode(Fetch(prog, k.pc)) && AnsweredAt(prog, io, c)
    requires i.Out? || i.SetPin? || AwaitsGo(i)
    ensures AtCore(d, Core(k.pc + 1, k.regs, flag), mem)
    ensures Reaches(prog, io, c, d, if i.Out? then [k.regs[i.rd]] else [])
  {
    var r := Advance(prog, io, c);
    if i.Wait? {
      assert Answers(io, c.t + 2, i.level);
      var n: nat :| n <= WAIT_HARD_CAP && MetAfter(io, c.t + 2, i.level, n);
      assert WaitDone(io, c.t + 2, i, n);
      hide Met;
    }
    hide Decode, Fetch;
    assert r.Next?;
    d := After(c, r);
    flag := d.s.flag;
    ReachesOne(prog, io, c);
  }

  lemma SendStep(prog: Program, io: Stimulus, c: Config, k: Core, mem: seq<Byte>, rd: nat)
    returns (d: Config, flag: bool)
    requires AtCore(c, k, mem) && k.pc + 5 < 511 && |k.regs| == 4 && |mem| == DATA_BYTES && Attends(prog, io, c)
    requires rd < 4
    requires CodeAt(prog, k.pc, SendCode(rd))
    ensures AtCore(d, Core(k.pc + 5, k.regs, flag), mem) && Reaches(prog, io, c, d, [k.regs[rd]])
  {
    d, flag := SendPart(prog, io, c, k, mem, rd, k.pc, 0);
  }

  /** What the rest of the handshake presents. */
  function Presented(j: nat, v: Byte): seq<Byte> {
    if j <= 1 then [v] else []
  }

  /** The handshake from its `j`-th instruction on. */
  lemma {:induction false} SendPart(prog: Program, io: Stimulus, c: Config, k: Core, mem: seq<Byte>, rd: nat, a: nat,
                                    j: nat)
    returns (d: Config, flag: bool)
    requires AtCore(c, k, mem) && a + 5 < 511 && |k.regs| == 4 && |mem| == DATA_BYTES && Attends(prog, io, c) && rd < 4
    requires CodeAt(prog, a, SendCode(rd)) && j <= 5 && k.pc == a + j
    ensures AtCore(d, Core(a + 5, k.regs, flag), mem) && Reaches(prog, io, c, d, Presented(j, k.regs[rd]))
    decreases 5 - j
  {
    AttendsNow(prog, io, c, k, mem);
    hide Decode, Fetch, Attends, AnsweredAt, Reaches;
    if j == 5 {
      d, flag := c, k.flag;
      ReachesSelf(prog, io, c);
    } else {
      var i := SendCode(rd)[j];
      assert InstrAt(prog, a, SendCode(rd), j);
      var d1, f1 := HandshakeStep(prog, io, c, k, mem, i);
      AttendsLater(prog, io, c, d1, if i.Out? then [k.regs[i.rd]] else []);
      d, flag := SendPart(prog, io, d1, Core(k.pc + 1, k.regs, f1), mem, rd, a, j + 1);
      var out := if i.Out? then [k.regs[i.rd]] else [];
      ReachesThen(prog, io, c, d1, d, out, Presented(j + 1, k.regs[rd]));
      assert out + Presented(j + 1, k.regs[rd]) == Presented(j, k.regs[rd]);
    }
  }

  // ------------------------------------------------------------ any host at all

  /** Of two paths from one configuration one is an initial part of the other. */
  lemma {:induction false} PathsCompare(prog: Program, io: Stimulus, c: Config, tr: seq<nat>, d: Config,
                                        tr': seq<nat>, d': Config)
    requires Valid(c.s) && Path(prog, io, c, tr, d) && Path(prog, io, c, tr', d') && |tr'| <= |tr|
    ensures tr' == tr[..|tr'|] && Valid(d'.s) && Path(prog, io, d', tr[|tr'|..], d)
    decreases |tr'|
  {
    hide Advance;
    if tr' == [] {
      assert tr[0..] == tr;
    } else {
      PathsCompare(prog, io, After(c, Advance(prog, io, c)), tr[1..], d, tr'[1..], d');
      assert tr[|tr'|..] == tr[1..][|tr'[1..]|..];
    }
  }

  /** Halting is possible only with a host that answered. */
  lemma HaltsOnlyAttended(prog: Program, io: Stimulus, c: Config, d: Config, outs: seq<Byte>)
    requires Reaches(prog, io, c, d, outs) && d.s.halted
    ensures Attends(prog, io, c)
  {
    var tr :| Path(prog, io, c, tr, d) && Outputs(prog, io, c, tr) == outs;
    forall e: Config, some: seq<Byte> | Reaches(prog, io, c, e, some) ensures AnsweredAt(prog, io, e) {
      var tr' :| Path(prog, io, c, tr', e) && Outputs(prog, io, c, tr') == some;
      PathPrefix(prog, io, c, tr, d, tr', e);
      NotLastAnswered(prog, io, e, tr[|tr'|..], d);
    }
  }

  /** A wait that some path leaves has been answered. */
  lemma NotLastAnswered(prog: Program, io: Stimulus, e: Config, tr: seq<nat>, d: Config)
    requires Valid(e.s) && Path(prog, io, e, tr, d) && (tr != [] || d.s.halted)
    ensures AnsweredAt(prog, io, e)
  {
    if tr != [] {
      FirstOf(prog, io, e, tr, d);
      WaitLeft(prog, io, e);
    }
    hide Advance, Answers;
  }

  lemma WaitLeft(prog: Program, io: Stimulus, e: Config)
    requires Valid(e.s) && Advance(prog, io, e).Next?
    ensures AnsweredAt(prog, io, e)
  {
    hide Decode, Fetch, Answers, Advance;
    var i := Decode(Fetch(prog, e.s.pc));
    if AwaitsGo(i) {
      LeftMeansFound(prog, io, e, i);
      FoundAnswers(io, e.t + 2, i);
    }
  }

  lemma LeftMeansFound(prog: Program, io: Stimulus, e: Config, i: Instr)
    requires Valid(e.s) && Advance(prog, io, e).Next? && i == Decode(Fetch(prog, e.s.pc)) && i.Wait?
    ensures InRange(i) && WaitFrom(io, e.t + 2, i, 0) >= 0
  {
    hide Decode, Fetch, WaitFrom;
  }

  lemma FoundAnswers(io: Stimulus, t: nat, i: Instr)
    requires InRange(i) && AwaitsGo(i) && WaitFrom(io, t, i, 0) >= 0
    ensures Answers(io, t, i.level)
  {
    hide Met;
    var k := WaitFrom(io, t, i, 0);
    assert WaitDone(io, t, i, k);
    assert MetAfter(io, t, i.level, k);
  }

  /** `io` up to cycle `end`, and from then on a HOST_GO that changes every cycle. */
  function Switched(io: Stimulus, end: nat): Stimulus {
    (t: nat) => if t < end then io(t) else Sample(0, if t % 2 == 0 then 16 else 0)
  }

  lemma SwitchedAnswers(io: Stimulus, end: nat, t: nat, level: Level)
    requires t >= end
    ensures Answers(Switched(io, end), t, level)
  {
    var k := if t % 2 == 1 - level then 0 else 1;
    assert Bit(16, 4) == Bit(8, 3) == Bit(4, 2) == Bit(2, 1) == Bit(1, 0) == 1;
    assert Bit(0, 4) == Bit(0, 3) == Bit(0, 2) == Bit(0, 1) == Bit(0, 0) == 0;
    assert MetAfter(Switched(io, end), t, level, k);
  }

  /** The waits up to `end` see the same pins. */
  lemma SameWait(io: Stimulus, io': Stimulus, t: nat, i: Instr, k: nat)
    requires i.Wait? && InRange(i) && WaitFrom(io, t, i, 0) == k
    requires forall u: nat :: u <= t + k ==> io'(u) == io(u)
    ensures WaitFrom(io', t, i, 0) == k
  {
    forall j: nat | j <= k ensures WaitDone(io', t, i, j) <==> WaitDone(io, t, i, j) {
      assert io'(t + j) == io(t + j);
    }
    hide WaitFrom, WaitDone;
  }

  /** An instruction that ends by `end` is the same on pins that agree so far. */
  lemma SameStep(prog: Program, io: Stimulus, io': Stimulus, c: Config, end: nat)
    requires Valid(c.s) && Advance(prog, io, c).Next? && c.t + Advance(prog, io, c).cycles <= end
    requires forall u: nat :: u < end ==> io'(u) == io(u)
    ensures Advance(prog, io', c) == Advance(prog, io, c)
  {
    var i := Decode(Fetch(prog, c.s.pc));
    hide Decode, Met, DataEffect, WaitFrom;
    assert io'(c.t + 2) == io(c.t + 2);
    if i.Wait? {
      var k := WaitFrom(io, c.t + 2, i, 0);
      SameWait(io, io', c.t + 2, i, k);
      assert io'(c.t + 2 + k) == io(c.t + 2 + k);
      SameMet(io, io', c.t + 2 + k, i);
    }
  }

  lemma SameMet(io: Stimulus, io': Stimulus, t: nat, i: Instr)
    requires i.Wait? && InRange(i) && io'(t) == io(t)
    ensures Met(io', t, i.pin, i.level) == Met(io, t, i.pin, i.level)
  {
  }

  lemma {:induction false} SamePath(prog: Program, io: Stimulus, io': Stimulus, c: Config, tr: seq<nat>, d: Config)
    requires Valid(c.s) && Path(prog, io, c, tr, d)
    requires forall u: nat :: u < d.t ==> io'(u) == io(u)
    ensures Path(prog, io', c, tr, d) && Outputs(prog, io', c, tr) == Outputs(prog, io, c, tr)
    decreases |tr|
  {
    hide Advance, Decode;
    if tr != [] {
      var c1 := After(c, Advance(prog, io, c));
      PathTime(prog, io, c1, tr[1..], d);
      SameStep(prog, io, io', c, d.t);
      SamePath(prog, io, io', c1, tr[1..], d);
    }
  }

  /** Whatever the host did on the way to `d`, some host that always answers did it too. */
  lemma SomeHostAttends(prog: Program, io: Stimulus, c: Config, d: Config, outs: seq<Byte>)
    requires Reaches(prog, io, c, d, outs)
    ensures Reaches(prog, Switched(io, d.t), c, d, outs) && Attends(prog, Switched(io, d.t), c)
  {
    var io' := Switched(io, d.t);
    var tr :| Path(prog, io, c, tr, d) && Outputs(prog, io, c, tr) == outs;
    SamePath(prog, io, io', c, tr, d);
    forall e: Config, some: seq<Byte> | Reaches(prog, io', c, e, some) ensures AnsweredAt(prog, io', e) {
      var tr' :| Path(prog, io', c, tr', e) && Outputs(prog, io', c, tr') == some;
      EarlyOrLate(prog, io, c, tr, d, tr', e);
    }
  }

  /** A point of the run is before `d`, where its wait was left, or after it, where the
      host changes HOST_GO every cycle. */
  lemma EarlyOrLate(prog: Program, io: Stimulus, c: Config, tr: seq<nat>, d: Config, tr': seq<nat>, e: Config)
    requires Valid(c.s) && Path(prog, Switched(io, d.t), c, tr, d) && Path(prog, Switched(io, d.t), c, tr', e)
    ensures AnsweredAt(prog, Switched(io, d.t), e)
  {
    var io' := Switched(io, d.t);
    hide Advance, Switched, Answers, Decode;
    if |tr'| < |tr| {
      PathsCompare(prog, io', c, tr, d, tr', e);
      NotLastAnswered(prog, io', e, tr[|tr'|..], d);
    } else {
      PathsCompare(prog, io', c, tr', e, tr, d);
      PathTime(prog, io', d, tr'[|tr|..], e);
      if Live(e) && AwaitsGo(Decode(Fetch(prog, e.s.pc))) {
        SwitchedAnswers(io, d.t, e.t + 2, Decode(Fetch(prog, e.s.pc)).level);
      }
    }
  }

  /** What a run has presented so far is an initial part of what the halting run presents. */
  lemma OutputsPrefix(prog: Program, io: Stimulus, c: Config, d: Config, full: seq<Byte>, e: Config, outs: seq<Byte>)
    requires Reaches(prog, io, c, d, full) && d.s.halted && Reaches(prog, io, c, e, outs)
    ensures outs <= full && (e.s.halted ==> outs == full)
  {
    var tr :| Path(prog, io, c, tr, d) && Outputs(prog, io, c, tr) == full;
    var tr' :| Path(prog, io, c, tr', e) && Outputs(prog, io, c, tr') == outs;
    PathPrefix(prog, io, c, tr, d, tr', e);
    var rest := tr[|tr'|..];
    assert tr == tr' + rest;
    OutputsAppend(prog, io, c, tr', e, rest);
    if e.s.halted {
      assert rest == [];
    }
    hide Path, Outputs;
  }
}
