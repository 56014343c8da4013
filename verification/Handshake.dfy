/** The runtime byte handshake: the host on one side, the echo firmware run by the cycle
    machine on the other, two synchronizer flops between them, and any host latency. */
module Handshake {
  import opened Bits
  import opened Machine
  import opened Runs
  import opened CycleCpu
  import opened Firmware

  datatype HostPins = HostPins(ui: Byte, go: Level)

  /** The firmware and the synchronizer flops of HOST_GO and of the data pins. */
  datatype Link = Link(fw: Fw, go1: Level, go2: Level, ui1: Byte, ui2: Byte)

  function LinkClock(ops: seq<Op>, w: Link, pins: HostPins): Link
    requires w.fw.pc < |ops|
  {
    Link(FwClock(ops, w.fw, w.go2, w.ui2), pins.go, w.go1, pins.ui, w.ui1)
  }

  lemma LinkStaysIn(ops: seq<Op>, w: Link, pins: HostPins)
    requires Looping(ops) && w.fw.pc < |ops|
    ensures LinkClock(ops, w, pins).fw.pc < |ops|
  {
  }

  function LinkClocks(ops: seq<Op>, w: Link, pins: HostPins, n: nat): (r: Link)
    requires Looping(ops) && w.fw.pc < |ops|
    ensures r.fw.pc < |ops|
    decreases n
  {
    if n == 0 then w else LinkStaysIn(ops, w, pins); LinkClocks(ops, LinkClock(ops, w, pins), pins, n - 1)
  }

  lemma {:induction false} LinkClocksAdd(ops: seq<Op>, w: Link, pins: HostPins, a: nat, b: nat)
    requires Looping(ops) && w.fw.pc < |ops|
    ensures LinkClocks(ops, w, pins, a + b) == LinkClocks(ops, LinkClocks(ops, w, pins, a), pins, b)
    decreases a
  {
    if a > 0 {
      LinkStaysIn(ops, w, pins);
      LinkClocksAdd(ops, LinkClock(ops, w, pins), pins, a - 1, b);
    }
  }

  // ------------------------------------------------------------ the echo firmware

  /** Take a byte, give it back, again and again. */
  const ECHO: seq<Op> := [
    AwaitGo(1), Capture, Status(1), AwaitGo(0), Status(0),
    AwaitGo(1), Present, Status(1), AwaitGo(0), Status(0),
    Jump(0)]

  lemma EchoLoops()
    ensures Looping(ECHO) && |ECHO| == 11
  {
  }

  /** Where a transfer starts: 0 takes a byte in, 5 gives one out. */
  type Start = p: nat | p == 0 || p == 5 witness 0

  /** Between transfers: HOST_STATUS low, HOST_GO seen low, the firmware at its next
      wait for HOST_GO or on its way there. */
  predicate Rest(w: Link, p: Start) {
    && w.fw.status == 0 && w.go1 == 0 && w.go2 == 0 && w.fw.phase <= 2
    && (w.fw.pc == p || (p == 0 && w.fw.pc == 10))
  }

  /** HOST_GO is up and not yet acknowledged. */
  predicate Rising(w: Link, p: Start, ui: Byte, r0: Byte, uo: Byte) {
    && w.fw.status == 0 && w.fw.phase <= 2
    && (w.go2 == 1 ==> w.go1 == 1 && w.ui2 == ui) && (w.go1 == 1 ==> w.ui1 == ui)
    && (w.fw.pc == p || w.fw.pc == p + 1 || w.fw.pc == p + 2 || (p == 0 && w.fw.pc == 10))
    && (w.fw.pc == p + 1 || w.fw.pc == p + 2 ==> w.go2 == 1)
    && w.fw.r0 == (if p == 0 && w.fw.pc == 2 then ui else r0)
    && w.fw.uo == (if p == 5 && w.fw.pc == 7 then r0 else uo)
  }

  /** Acknowledged, HOST_GO still up. */
  predicate High(w: Link, p: Start, r0: Byte, uo: Byte) {
    w.fw.status == 1 && w.fw.phase <= 2 && w.go1 == 1 && w.go2 == 1 && w.fw.pc == p + 3 && w.fw.r0 == r0
      && w.fw.uo == uo
  }

  /** HOST_GO is down and HOST_STATUS not yet. */
  predicate Falling(w: Link, p: Start, r0: Byte, uo: Byte) {
    && w.fw.status == 1 && w.fw.phase <= 2 && (w.go2 == 0 ==> w.go1 == 0)
    && (w.fw.pc == p + 3 || w.fw.pc == p + 4) && (w.fw.pc == p + 4 ==> w.go2 == 0)
    && w.fw.r0 == r0 && w.fw.uo == uo
  }

  /** Clocks until the level at the pin comes out of the second flop. */
  function Delay2(w: Link, level: Level): nat {
    if w.go2 == level && w.go1 == level then 0 else if w.go1 == level then 1 else 2
  }

  function Later(a: int, b: int): int {
    if a < b then b else a
  }

  /** Clocks until HOST_STATUS rises, HOST_GO staying up. */
  function RiseTime(w: Link, p: Start): int {
    if w.fw.pc == 10 then 12 - w.fw.phase
    else if w.fw.pc == p then 7 + Later(2 - w.fw.phase, Delay2(w, 1))
    else 3 * (p + 3 - w.fw.pc) - w.fw.phase
  }

  /** Clocks until HOST_STATUS falls, HOST_GO staying down. */
  function FallTime(w: Link, p: Start): int {
    if w.fw.pc == p + 3 then 4 + Later(2 - w.fw.phase, Delay2(w, 0)) else 3 - w.fw.phase
  }

  function Other(p: Start): Start {
    if p == 0 then 5 else 0
  }

  /** What R0 and the output port hold after a transfer. */
  function R0After(p: Start, ui: Byte, r0: Byte): Byte {
    if p == 0 then ui else r0
  }

  function UoAfter(p: Start, r0: Byte, uo: Byte): Byte {
    if p == 5 then r0 else uo
  }

  predicate SameData(v: Link, w: Link) {
    v.fw.r0 == w.fw.r0 && v.fw.uo == w.fw.uo
  }

  lemma {:induction false} RestStays(w: Link, p: Start, pins: HostPins, n: nat)
    requires Rest(w, p) && pins.go == 0
    ensures Looping(ECHO) && |ECHO| == 11
    ensures var v := LinkClocks(ECHO, w, pins, n); Rest(v, p) && SameData(v, w)
    decreases n
  {
    EchoLoops();
    if n > 0 {
      RestStays(LinkClock(ECHO, w, pins), p, pins, n - 1);
    }
  }

  lemma {:induction false} HighStays(w: Link, p: Start, pins: HostPins, n: nat, r0: Byte, uo: Byte)
    requires High(w, p, r0, uo) && pins.go == 1
    ensures Looping(ECHO) && |ECHO| == 11
    ensures High(LinkClocks(ECHO, w, pins, n), p, r0, uo)
    decreases n
  {
    EchoLoops();
    if n > 0 {
      HighStays(LinkClock(ECHO, w, pins), p, pins, n - 1, r0, uo);
    }
  }

  /** A request is served, and HOST_STATUS is up, after exactly `RiseTime` clocks: the byte
      captured is the one the host holds, the byte presented R0. */
  lemma {:induction false} RiseServed(w: Link, p: Start, pins: HostPins, n: nat, r0: Byte, uo: Byte)
    requires Rising(w, p, pins.ui, r0, uo) && pins.go == 1
    ensures Looping(ECHO) && |ECHO| == 11
    ensures var v := LinkClocks(ECHO, w, pins, n);
            && (v.fw.status == 1 ==> High(v, p, R0After(p, pins.ui, r0), UoAfter(p, r0, uo)))
            && (v.fw.status == 1 <==> n >= RiseTime(w, p)) && (n == RiseTime(w, p) ==> v.fw.phase == 0)
    decreases n
  {
    EchoLoops();
    if n > 0 {
      var w1 := LinkClock(ECHO, w, pins);
      if w.fw.pc == p + 2 && w.fw.phase == 2 {
        HighStays(w1, p, pins, n - 1, R0After(p, pins.ui, r0), UoAfter(p, r0, uo));
      } else {
        RiseServed(w1, p, pins, n - 1, r0, uo);
      }
    }
  }

  /** And after the host drops HOST_GO the firmware's is the last edge, after exactly
      `FallTime` clocks. */
  lemma {:induction false} FallServed(w: Link, p: Start, pins: HostPins, n: nat, r0: Byte, uo: Byte)
    requires Falling(w, p, r0, uo) && pins.go == 0
    ensures Looping(ECHO) && |ECHO| == 11
    ensures var v := LinkClocks(ECHO, w, pins, n);
            && (v.fw.status == 0 ==> Rest(v, Other(p)) && v.fw.r0 == r0 && v.fw.uo == uo)
            && (v.fw.status == 0 <==> n >= FallTime(w, p))
            && (n == FallTime(w, p) ==> v.fw.pc == p + 5 && v.fw.phase == 0)
    decreases n
  {
    EchoLoops();
    if n > 0 {
      var w1 := LinkClock(ECHO, w, pins);
      if w.fw.pc == p + 4 && w.fw.phase == 2 {
        RestStays(w1, Other(p), pins, n - 1);
      } else {
        FallServed(w1, p, pins, n - 1, r0, uo);
      }
    }
  }

  // ------------------------------------------------------------ the host

  /** A host transfer: give the firmware a byte, or ask it for one. */
  datatype Transfer = Give(b: Byte) | Ask

  /** A wait for `level` may be given up when `n` clocks have passed: that is past the
      limit, and at most `slack` clocks ago HOST_STATUS had the other level. */
  ghost predicate GivenUp(ops: seq<Op>, w: Link, pins: HostPins, level: Level, limit: nat, slack: nat, n: nat)
    requires Looping(ops) && w.fw.pc < |ops|
  {
    n > limit && exists m: nat :: m <= n <= m + slack && LinkClocks(ops, w, pins, m).fw.status != level
  }

  /** The chip running compiled handshake firmware, and the host's pins. */
  class Bench {
    ghost const ops: seq<Op>
    const prog: Program
    /** Clock cycles a wait lasts before the host gives up. */
    const limit: nat
    /** The most clock cycles between a reading of HOST_STATUS and the host's look at its
        clock right after it. */
    const slack: nat
    var cpu: Cpu
    var go1: Level
    var go2: Level
    var ui1: Byte
    var ui2: Byte
    var pins: HostPins

    ghost predicate Running()
      reads this
    {
      Looping(ops) && Holds(prog, ops) && Valid(cpu.s) && !cpu.s.halted && cpu.s.pc < |ops|
    }

    ghost function Wires(): (w: Link)
      requires Running()
      reads this
      ensures w.fw.pc < |ops|
    {
      Link(View(cpu), go1, go2, ui1, ui2)
    }

    /** Out of LOAD: the machine reset, its program memory holding the compiled firmware,
        HOST_GO low for some clocks. */
    constructor (ghost ops: seq<Op>, prog: Program, data: seq<Byte>, limit: nat, slack: nat, ui: Byte)
      requires Looping(ops) && Holds(prog, ops) && |data| == DATA_BYTES
      ensures this.ops == ops && this.prog == prog && this.limit == limit && this.slack == slack
      ensures Running() && Wires() == Link(Fw(0, 0, 0, 0, 0), 0, 0, ui, ui) && pins == HostPins(ui, 0)
    {
      this.ops, this.prog, this.limit, this.slack := ops, prog, limit, slack;
      cpu := Cpu(Reset().(dataMem := data), FetchLo);
      go1, go2, ui1, ui2, pins := 0, 0, ui, ui, HostPins(ui, 0);
    }

    /** One clock: the real words on the real machine. */
    method Tick()
      requires Running()
      modifies this
      ensures Running() && pins == old(pins) && Wires() == LinkClock(ops, old(Wires()), pins)
    {
      FirmwareSimulates(ops, prog, cpu, go2, ui2);
      hide FwClock;
      cpu := CpuClock(prog, cpu, PinSample(go2, ui2));
      go1, go2, ui1, ui2 := pins.go, go1, pins.ui, ui1;
    }

    method Run(d: nat)
      requires Running()
      modifies this
      ensures Running() && pins == old(pins) && Wires() == LinkClocks(ops, old(Wires()), pins, d)
    {
      for i := 0 to d
        invariant Running() && pins == old(pins) && Wires() == LinkClocks(ops, old(Wires()), pins, i)
      {
        LinkClocksAdd(ops, old(Wires()), pins, i, 1);
        assert LinkClocks(ops, Wires(), pins, 1) == LinkClock(ops, Wires(), pins);
        Tick();
      }
    }

    /** The host may take any time. */
    method Latency() returns (ghost n: nat)
      requires Running()
      modifies this
      ensures Running() && pins == old(pins) && Wires() == LinkClocks(ops, old(Wires()), pins, n)
    {
      var d: nat :| true;
      n := d;
      Run(d);
    }

    /** Reads HOST_STATUS until it has the level; after each reading that has not, looks at
        the clock, at most `slack` later, and gives up past the limit. Any time passes
        before each reading. `n` is when the wait ends. */
    method WaitStatus(level: Level) returns (ok: bool, ghost n: nat)
      requires Running()
      modifies this
      ensures Running() && pins == old(pins) && Wires() == LinkClocks(ops, old(Wires()), pins, n)
      ensures ok ==> Wires().fw.status == level
      ensures !ok ==> GivenUp(ops, old(Wires()), pins, level, limit, slack, n)
    {
      var waited: nat :| true;
      Run(waited);
      n := waited;
      while cpu.s.pinDrv[HOST_STATUS] != level
        invariant Running() && pins == old(pins) && n == waited
        invariant Wires() == LinkClocks(ops, old(Wires()), pins, n)
        decreases if waited <= limit then limit + 1 - waited else 0
      {
        var gap: nat :| gap <= slack;
        LinkClocksAdd(ops, old(Wires()), pins, waited, gap);
        Run(gap);
        waited, n := waited + gap, waited + gap;
        if waited > limit {
          return false, n;
        }
        var pause: nat :| pause >= 1;
        LinkClocksAdd(ops, old(Wires()), pins, waited, pause);
        Run(pause);
        waited, n := waited + pause, waited + pause;
      }
      ok := true;
    }

    /** Raise HOST_GO, wait, read the output port, drop HOST_GO, wait. Wherever the firmware
        is in its loop it takes exactly one step of the conversation: the byte on the pins
        in, or R0 out. No wait runs out unless the host lets its whole limit but eleven clocks
        pass between a reading and its look at the clock; `SlowestWait` shows that then one
        can. */
    method Exchange(ghost p: Start) returns (ok: bool, got: Byte)
      requires Running() && ops == ECHO && pins.go == 0 && Rest(Wires(), p)
      modifies this
      ensures Running() && (!ok ==> slack + 11 > limit)
      ensures ok ==> pins == old(pins) && Rest(Wires(), Other(p))
      ensures ok ==> Wires().fw.r0 == R0After(p, pins.ui, old(Wires()).fw.r0)
      ensures ok ==> got == Wires().fw.uo == UoAfter(p, old(Wires()).fw.r0, old(Wires()).fw.uo)
    {
      got := 0;
      ghost var n;
      ghost var r0, uo := Wires().fw.r0, Wires().fw.uo;
      pins := HostPins(pins.ui, 1);
      ghost var w := Wires();
      assert Rising(w, p, pins.ui, r0, uo);
      RiseGivenUp(w, p, pins, limit, slack, r0, uo);
      ok, n := WaitStatus(1);
      if !ok {
        return;
      }
      RiseServed(w, p, pins, n, r0, uo);
      r0, uo := R0After(p, pins.ui, r0), UoAfter(p, r0, uo);
      w := Wires();
      n := Latency();
      HighStays(w, p, pins, n, r0, uo);
      got := cpu.s.uoOut;
      pins := HostPins(pins.ui, 0);
      w := Wires();
      assert Falling(w, p, r0, uo);
      FallGivenUp(w, p, pins, limit, slack, r0, uo);
      ok, n := WaitStatus(0);
      if !ok {
        return;
      }
      FallServed(w, p, pins, n, r0, uo);
      w := Wires();
      n := Latency();
      RestStays(w, Other(p), pins, n);
    }

    /** Give the firmware one byte. */
    method Send(ghost p: Start, b: Byte) returns (ok: bool)
      requires Running() && ops == ECHO && pins.go == 0 && Rest(Wires(), p)
      modifies this
      ensures Running() && (!ok ==> slack + 11 > limit)
      ensures ok ==> pins == HostPins(b, 0) && Rest(Wires(), Other(p))
      ensures ok ==> Wires().fw.r0 == R0After(p, b, old(Wires()).fw.r0)
      ensures ok ==> Wires().fw.uo == UoAfter(p, old(Wires()).fw.r0, old(Wires()).fw.uo)
    {
      pins := HostPins(b, pins.go);
      ghost var w := Wires();
      ghost var n := Latency();
      RestStays(w, p, pins, n);
      var got;
      ok, got := Exchange(p);
    }

    /** One transfer, and the reply if it asks for one. */
    method Carry(x: Transfer, ghost p: Start) returns (ok: bool, reply: seq<Byte>)
      requires Running() && ops == ECHO && pins.go == 0 && Rest(Wires(), p)
      modifies this
      ensures Running() && (!ok ==> slack + 11 > limit)
      ensures ok ==> pins == HostPins(OnPins(x, old(pins).ui), 0) && Rest(Wires(), Other(p))
      ensures ok ==> Wires().fw.r0 == R0After(p, pins.ui, old(Wires()).fw.r0)
      ensures ok ==> Wires().fw.uo == UoAfter(p, old(Wires()).fw.r0, old(Wires()).fw.uo)
      ensures ok ==> reply == (if x.Ask? then [Wires().fw.uo] else [])
    {
      hide Rest, R0After, UoAfter, Looping, Holds;
      reply := [];
      match x {
        case Give(b) => ok := Send(p, b);
        case Ask =>
          var got;
          ok, got := Exchange(p);
          reply := [got];
      }
    }

    /** Any conversation at all, at any speed: every transfer completes, and the replies are
        those of the conversation's meaning. A host whose slack stays eleven clocks below its
        limit never times out. */
    method Converse(transfers: seq<Transfer>) returns (ok: bool, replies: seq<Byte>)
      requires Running() && ops == ECHO && pins.go == 0 && Rest(Wires(), 0)
      modifies this
      ensures Running() && (!ok ==> slack + 11 > limit)
      ensures ok ==> replies == Replies(transfers, 0, old(pins).ui, old(Wires()).fw.r0, old(Wires()).fw.uo)
    {
      hide Rest, R0After, UoAfter, Looping, Holds, Replies, OnPins;
      replies, ok := [], true;
      ghost var p: Start := 0;
      for i := 0 to |transfers|
        invariant Running() && ok && ops == ECHO && pins.go == 0 && Rest(Wires(), p)
        invariant replies + Replies(transfers[i..], p, pins.ui, Wires().fw.r0, Wires().fw.uo)
                  == Replies(transfers, 0, old(pins).ui, old(Wires()).fw.r0, old(Wires()).fw.uo)
      {
        NextReply(transfers, i, p, pins.ui, Wires().fw.r0, Wires().fw.uo);
        var reply;
        ok, reply := Carry(transfers[i], p);
        if !ok {
          return;
        }
        replies := replies + reply;
        p := Other(p);
      }
      NoReply(transfers, p, pins.ui, Wires().fw.r0, Wires().fw.uo);
    }
  }

  /** The byte on the data pins during a transfer. */
  function OnPins(x: Transfer, ui: Byte): Byte {
    if x.Give? then x.b else ui
  }

  /** The host's replies when the firmware takes and gives bytes in turn. */
  function Replies(transfers: seq<Transfer>, p: Start, ui: Byte, r0: Byte, uo: Byte): seq<Byte> {
    if transfers == [] then []
    else
      var held := OnPins(transfers[0], ui);
      var r, u := R0After(p, held, r0), UoAfter(p, r0, uo);
      (if transfers[0].Ask? then [u] else []) + Replies(transfers[1..], Other(p), held, r, u)
  }

  lemma NextReply(transfers: seq<Transfer>, i: nat, p: Start, ui: Byte, r0: Byte, uo: Byte)
    requires i < |transfers|
    ensures var held := OnPins(transfers[i], ui);
            var r, u := R0After(p, held, r0), UoAfter(p, r0, uo);
            Replies(transfers[i..], p, ui, r0, uo) ==
              (if transfers[i].Ask? then [u] else []) + Replies(transfers[i + 1..], Other(p), held, r, u)
  {
    assert transfers[i..][0] == transfers[i] && transfers[i..][1..] == transfers[i + 1..];
  }

  lemma NoReply(transfers: seq<Transfer>, p: Start, ui: Byte, r0: Byte, uo: Byte)
    ensures Replies(transfers[|transfers|..], p, ui, r0, uo) == []
  {
  }

  /** A wait for the acknowledge can be given up exactly if the host is that slow. */
  lemma RiseGivenUp(w: Link, p: Start, pins: HostPins, limit: nat, slack: nat, r0: Byte, uo: Byte)
    requires Rising(w, p, pins.ui, r0, uo) && pins.go == 1
    ensures Looping(ECHO) && |ECHO| == 11 && 1 <= RiseTime(w, p) <= 12
    ensures (exists n: nat :: GivenUp(ECHO, w, pins, 1, limit, slack, n)) <==> slack + RiseTime(w, p) - 1 > limit
  {
    EchoLoops();
    var last := RiseTime(w, p) - 1;
    forall m: nat ensures LinkClocks(ECHO, w, pins, m).fw.status == 1 <==> m > last {
      RiseServed(w, p, pins, m, r0, uo);
    }
    if slack + last > limit {
      assert LinkClocks(ECHO, w, pins, last).fw.status != 1;
      assert GivenUp(ECHO, w, pins, 1, limit, slack, slack + last);
    }
  }

  lemma FallGivenUp(w: Link, p: Start, pins: HostPins, limit: nat, slack: nat, r0: Byte, uo: Byte)
    requires Falling(w, p, r0, uo) && pins.go == 0
    ensures Looping(ECHO) && |ECHO| == 11 && 1 <= FallTime(w, p) <= 6
    ensures (exists n: nat :: GivenUp(ECHO, w, pins, 0, limit, slack, n)) <==> slack + FallTime(w, p) - 1 > limit
  {
    EchoLoops();
    var last := FallTime(w, p) - 1;
    forall m: nat ensures LinkClocks(ECHO, w, pins, m).fw.status == 0 <==> m > last {
      FallServed(w, p, pins, m, r0, uo);
    }
    if slack + last > limit {
      assert LinkClocks(ECHO, w, pins, last).fw.status != 0;
      assert GivenUp(ECHO, w, pins, 0, limit, slack, slack + last);
    }
  }

  /** The firmware after `n` clocks of the echo program. */
  function After(w: Link, ui: Byte, go: Level, n: nat): (r: Link)
    requires w.fw.pc < 11
    ensures r.fw.pc < 11
  {
    EchoLoops();
    LinkClocks(ECHO, w, HostPins(ui, go), n)
  }

  /** Two transfers by a host that never loses a clock, and the third request comes while
      the firmware jumps back: from there a wait can be given up exactly if the host lets
      its whole limit but eleven clocks pass before it looks at its clock. */
  lemma SlowestWait(ui: Byte, limit: nat, slack: nat)
    ensures Looping(ECHO) && |ECHO| == 11
    ensures var first := After(After(Link(Fw(0, 0, 0, 0, 0), 0, 0, ui, ui), ui, 1, 9), ui, 0, 6);
            var second := After(After(first, ui, 1, 9), ui, 0, 6);
            && Rest(first, 5) && Rest(second, 0)
            && ((exists n: nat :: GivenUp(ECHO, second, HostPins(ui, 1), 1, limit, slack, n)) <==> slack + 11 > limit)
  {
    EchoLoops();
    var start := Link(Fw(0, 0, 0, 0, 0), 0, 0, ui, ui);
    RiseServed(start, 0, HostPins(ui, 1), 9, 0, 0);
    var up := After(start, ui, 1, 9);
    FallServed(up, 0, HostPins(ui, 0), 6, ui, 0);
    var first := After(up, ui, 0, 6);
    RiseServed(first, 5, HostPins(ui, 1), 9, ui, 0);
    var up2 := After(first, ui, 1, 9);
    FallServed(up2, 5, HostPins(ui, 0), 6, ui, ui);
    var second := After(up2, ui, 0, 6);
    RiseGivenUp(second, 0, HostPins(ui, 1), limit, slack, ui, ui);
  }

  /** Send a byte, ask for one: the test's conversation. */
  function SendReceive(bytes: seq<Byte>): seq<Transfer> {
    if bytes == [] then [] else [Give(bytes[0]), Ask] + SendReceive(bytes[1..])
  }

  /** Every byte sent comes back, once and in order. */
  lemma {:induction false} EchoesInOrder(bytes: seq<Byte>, ui: Byte, r0: Byte, uo: Byte)
    ensures Replies(SendReceive(bytes), 0, ui, r0, uo) == bytes
  {
    if bytes != [] {
      var b, rest := bytes[0], SendReceive(bytes[1..]);
      EchoesInOrder(bytes[1..], b, b, b);
      var ts := SendReceive(bytes);
      assert ts[1..] == [Ask] + rest && ([Ask] + rest)[1..] == rest;
      assert Replies([Ask] + rest, 5, b, b, uo) == [b] + Replies(rest, 0, b, b, b);
    }
  }

  // ------------------------------------------------------------ the superseded order

  /** The earlier OUT sequence, started by the firmware, and an IN after it. */
  const OLD_ORDER: seq<Op> := [
    Present, Status(1), AwaitGo(1), Status(0), AwaitGo(0),
    AwaitGo(1), Capture, Status(1), AwaitGo(0), Status(0),
    Jump(0)]

  lemma OldLoops()
    ensures Looping(OLD_ORDER) && |OLD_ORDER| == 11
  {
  }

  /** The host answers a byte with HOST_GO up: the firmware is about to see it, has seen
      it, or has dropped HOST_STATUS and waits for HOST_GO to fall. */
  predicate OldAnswered(w: Link) {
    && w.fw.phase <= 2 && (w.go2 == 1 ==> w.go1 == 1)
    && ((w.fw.pc == 2 && w.fw.status == 1) || (w.fw.pc == 3 && w.fw.status == 1 && w.go2 == 1)
        || (w.fw.pc == 4 && w.fw.status == 0 && w.go2 == 1))
  }

  /** Where the firmware is when the host sees HOST_STATUS fall. */
  predicate OldTurnaround(w: Link) {
    w.fw.phase <= 2 && w.fw.pc == 4 && w.fw.status == 0 && w.go1 == 1 && w.go2 == 1
  }

  function OldRank(w: Link): int {
    Delay2(w, 1) + 3 * (4 - w.fw.pc) - w.fw.phase
  }

  /** That turnaround is reached from every answered byte, at any latency, and is where
      every host that sees HOST_STATUS low is. */
  lemma {:induction false} OldTurnaroundReached(w: Link, pins: HostPins, n: nat)
    requires OldAnswered(w) && pins.go == 1
    ensures Looping(OLD_ORDER) && |OLD_ORDER| == 11
    ensures var v := LinkClocks(OLD_ORDER, w, pins, n);
            OldAnswered(v) && (v.fw.status == 0 ==> OldTurnaround(v)) && (n >= 16 ==> v.fw.status == 0)
    decreases n
  {
    OldServed(w, pins, n);
  }

  lemma {:induction false} OldServed(w: Link, pins: HostPins, n: nat)
    requires OldAnswered(w) && pins.go == 1
    ensures Looping(OLD_ORDER) && |OLD_ORDER| == 11
    ensures var v := LinkClocks(OLD_ORDER, w, pins, n);
            && OldAnswered(v) && (v.fw.status == 0 ==> OldTurnaround(v))
            && (w.fw.pc == 4 || n >= OldRank(w) ==> v.fw.status == 0)
    decreases n
  {
    OldLoops();
    if n > 0 {
      OldServed(LinkClock(OLD_ORDER, w, pins), pins, n - 1);
    }
  }

  /** No clock edge while HOST_GO was low: the firmware never leaves its last wait and
      the host's next wait never ends. */
  lemma {:induction false} OldOrderDeadlocks(w: Link, pins: HostPins, n: nat)
    requires OldTurnaround(w) && pins.go == 1
    ensures Looping(OLD_ORDER) && |OLD_ORDER| == 11
    ensures OldTurnaround(LinkClocks(OLD_ORDER, w, pins, n))
    decreases n
  {
    OldLoops();
    if n > 0 {
      OldOrderDeadlocks(LinkClock(OLD_ORDER, w, pins), pins, n - 1);
    }
  }

  /** The low level has been clocked in and will reach the firmware's wait in time, or
      the firmware is past it. */
  predicate OldGoing(w: Link) {
    && w.fw.status == 0 && w.fw.phase <= 2
    && (|| (w.fw.pc == 4 && (w.go1 == 0 || w.go2 == 0) && w.fw.phase >= 1 && (w.go2 == 0 ==> w.fw.phase == 2))
        || (w.fw.pc == 5 && (w.go2 == 1 ==> w.go1 == 1)) || (6 <= w.fw.pc <= 7 && w.go1 == 1 && w.go2 == 1))
  }

  predicate OldLow(w: Link) {
    w.go1 == 0 && OldGoing(w) && (w.fw.pc == 4 || (w.fw.pc == 5 && w.go2 == 0))
  }

  predicate OldHigh(w: Link) {
    w.fw.status == 1 && w.fw.pc == 8 && w.fw.phase <= 2 && w.go1 == 1 && w.go2 == 1
  }

  function OldGoingRank(w: Link): int {
    3 * (8 - w.fw.pc) - w.fw.phase + (if w.fw.pc == 4 then 1 + w.go2 else Delay2(w, 1))
  }

  lemma {:induction false} OldLowStays(w: Link, pins: HostPins, g: nat)
    requires pins.go == 0 && (OldLow(w) || (OldTurnaround(w) && g >= 1))
    ensures Looping(OLD_ORDER) && |OLD_ORDER| == 11
    ensures OldLow(LinkClocks(OLD_ORDER, w, pins, g))
    decreases g
  {
    OldLoops();
    if g > 0 {
      OldLowStays(LinkClock(OLD_ORDER, w, pins), pins, g - 1);
    }
  }

  lemma {:induction false} OldHighStays(w: Link, pins: HostPins, n: nat)
    requires OldHigh(w) && pins.go == 1
    ensures Looping(OLD_ORDER) && |OLD_ORDER| == 11
    ensures OldHigh(LinkClocks(OLD_ORDER, w, pins, n))
    decreases n
  {
    OldLoops();
    if n > 0 {
      OldHighStays(LinkClock(OLD_ORDER, w, pins), pins, n - 1);
    }
  }

  lemma {:induction false} OldResumes(w: Link, pins: HostPins, n: nat)
    requires OldGoing(w) && pins.go == 1
    ensures Looping(OLD_ORDER) && |OLD_ORDER| == 11
    ensures n >= OldGoingRank(w) ==> OldHigh(LinkClocks(OLD_ORDER, w, pins, n))
    decreases n
  {
    OldLoops();
    if n > 0 {
      var w1 := LinkClock(OLD_ORDER, w, pins);
      if w.fw.pc == 7 && w.fw.phase == 2 {
        OldHighStays(w1, pins, n - 1);
      } else {
        OldResumes(w1, pins, n - 1);
      }
    }
  }

  /** The host drops HOST_GO for `g` clock edges and raises it for `n` more. */
  function Reraised(w: Link, ui: Byte, g: nat, n: nat): Link
    requires w.fw.pc < 11
  {
    OldLoops();
    LinkClocks(OLD_ORDER, LinkClocks(OLD_ORDER, w, HostPins(ui, 0), g), HostPins(ui, 1), n)
  }

  /** The superseded order resumes exactly when some clock edge saw HOST_GO low. */
  lemma OldOrderExact(w: Link, ui: Byte, g: nat)
    requires OldTurnaround(w)
    ensures g >= 1 <==> exists n: nat :: Reraised(w, ui, g, n).fw.status == 1
  {
    OldLoops();
    if g >= 1 {
      OldLowStays(w, HostPins(ui, 0), g);
      OldResumes(LinkClocks(OLD_ORDER, w, HostPins(ui, 0), g), HostPins(ui, 1), 16);
      assert Reraised(w, ui, g, 16).fw.status == 1;
    } else {
      forall n: nat ensures Reraised(w, ui, g, n).fw.status == 0 {
        OldOrderDeadlocks(w, HostPins(ui, 1), n);
      }
    }
  }

  /** The firmware offers a byte: on its way to HOST_STATUS, or waiting with it up. */
  predicate OldOffering(w: Link) {
    && w.fw.phase <= 2 && w.go1 == 0 && w.go2 == 0
    && ((w.fw.pc < 2 && w.fw.status == 0) || (w.fw.pc == 2 && w.fw.status == 1))
  }

  lemma {:induction false} OldOffered(w: Link, pins: HostPins, n: nat)
    requires OldOffering(w) && pins.go == 0
    ensures Looping(OLD_ORDER) && |OLD_ORDER| == 11
    ensures var v := LinkClocks(OLD_ORDER, w, pins, n);
            OldOffering(v) && (w.fw.pc == 2 || n >= 3 * (2 - w.fw.pc) - w.fw.phase ==> v.fw.status == 1)
    decreases n
  {
    OldLoops();
    if n > 0 {
      OldOffered(LinkClock(OLD_ORDER, w, pins), pins, n - 1);
    }
  }

  /** From the start of the firmware, after any `a` and `b` clocks that let the host see
      HOST_STATUS rise and fall: a host that then asks for the next transfer without a
      clock edge in between waits for ever. */
  lemma OldDeadlockReachable(start: Link, ui: Byte, a: nat, b: nat, n: nat)
    requires start.fw.pc == 0 && start.fw.phase == 0 && start.fw.status == 0 && start.go1 == 0 && start.go2 == 0
    requires a >= 6 && b >= 16
    ensures Looping(OLD_ORDER) && |OLD_ORDER| == 11
    ensures var offered := LinkClocks(OLD_ORDER, start, HostPins(ui, 0), a);
            var turned := LinkClocks(OLD_ORDER, offered, HostPins(ui, 1), b);
            offered.fw.status == 1 && turned.fw.status == 0 && Reraised(turned, ui, 0, n).fw.status == 0
  {
    OldOffered(start, HostPins(ui, 0), a);
    var offered := LinkClocks(OLD_ORDER, start, HostPins(ui, 0), a);
    OldTurnaroundReached(offered, HostPins(ui, 1), b);
    OldOrderDeadlocks(LinkClocks(OLD_ORDER, offered, HostPins(ui, 1), b), HostPins(ui, 1), n);
  }
}
