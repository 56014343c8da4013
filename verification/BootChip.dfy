/** The chip's boot path, one clock at a time: two-flop synchronizers, edge detection,
    and the byte counter, acknowledge and echo of the LOAD state. */
module BootChip {
  import opened Bits

  const SRAM: nat := 1024

  datatype Write = Write(address: nat, value: Byte)

  /** What the host drives. */
  datatype Pins = Pins(ui: Byte, go: Level, start: Level)

  /** A synchronized input: both flops and the previous synchronized sample. */
  datatype Flops = Flops(first: Level, second: Level, previous: Level)

  /** Registers of the boot path; `log` lists the SRAM writes since reset. */
  datatype Chip = Chip(go: Flops, start: Flops, ui1: Byte, ui2: Byte, loading: bool, status: Level, boot: Boot)

  datatype Boot = Boot(address: nat, full: bool, ack: bool, echo: nat, mem: seq<Byte>, log: seq<Write>)

  predicate Valid(c: Chip) {
    |c.boot.mem| == SRAM && c.boot.address < SRAM
  }

  function Sync(f: Flops, pin: Level): Flops {
    Flops(pin, f.first, f.second)
  }

  predicate Rise(f: Flops) { f.second == 1 && f.previous == 0 }

  predicate Fall(f: Flops) { f.second == 0 && f.previous == 1 }

  /** The write strobe and the counter step are separate in the source: a START rise in
      the same cycle lets the write through but not the step. */
  function Stored(b: Boot, value: Byte): Boot
    requires |b.mem| == SRAM && b.address < SRAM
  {
    if b.full then b
    else Boot(b.address, b.full, b.ack, b.echo, b.mem[b.address := value], b.log + [Write(b.address, value)])
  }

  function NextAddress(a: nat): nat {
    if a == SRAM - 1 then a else a + 1
  }

  function Counted(b: Boot): Boot {
    var next := NextAddress(b.address);
    Boot(next, b.full || b.address == SRAM - 1, true, next % 0x100, b.mem, b.log)
  }

  function BootClock(c: Chip): Boot
    requires Valid(c)
  {
    var accepted := Rise(c.go) && !c.boot.ack;
    var b := if accepted then Stored(c.boot, c.ui2) else c.boot;
    if Rise(c.start) then Boot(b.address, b.full, b.ack, 0, b.mem, b.log)
    else if b.ack then (if Fall(c.go) then Boot(b.address, b.full, false, b.echo, b.mem, b.log) else b)
    else if accepted then Counted(b)
    else b
  }

  /** One clock edge. Once LOAD is left the boot registers stay as they are. */
  function Clock(c: Chip, pins: Pins): (r: Chip)
    requires Valid(c)
    ensures Valid(r)
  {
    Chip(Sync(c.go, pins.go), Sync(c.start, pins.start), pins.ui, c.ui1,
         c.loading && !Rise(c.start),
         if c.loading then (if c.boot.ack then 1 else 0) else c.status,
         if c.loading then BootClock(c) else c.boot)
  }

  function Clocks(c: Chip, pins: Pins, n: nat): (r: Chip)
    requires Valid(c)
    ensures Valid(r)
    decreases n
  {
    if n == 0 then c else Clocks(Clock(c, pins), pins, n - 1)
  }

  lemma {:induction false} ClocksAdd(c: Chip, pins: Pins, a: nat, b: nat)
    requires Valid(c)
    ensures Clocks(c, pins, a + b) == Clocks(Clocks(c, pins, a), pins, b)
    decreases a
  {
    if a > 0 {
      ClocksAdd(Clock(c, pins), pins, a - 1, b);
    }
  }

  const LOW := Flops(0, 0, 0)
  const HIGH := Flops(1, 1, 1)

  function ResetChip(mem: seq<Byte>): Chip {
    Chip(LOW, LOW, 0, 0, true, 0, Boot(0, false, false, 0, mem, []))
  }

  /** Nothing pending: the chip will take the next HOST_GO rise. */
  predicate Settled(c: Chip) {
    Valid(c) && c.loading && c.go == LOW && c.start == LOW && c.status == 0 && !c.boot.ack
  }

  /** A byte taken, acknowledged, and HOST_GO still high. */
  predicate Acked(c: Chip) {
    Valid(c) && c.loading && c.go == HIGH && c.start == LOW && c.status == 1 && c.boot.ack
  }

  lemma {:induction false} SettledStays(c: Chip, pins: Pins, n: nat)
    requires Settled(c) && pins.go == 0 && pins.start == 0
    ensures Settled(Clocks(c, pins, n)) && Clocks(c, pins, n).boot == c.boot
    decreases n
  {
    if n > 0 {
      SettledStays(Clock(c, pins), pins, n - 1);
    }
  }

  lemma {:induction false} AckedStays(c: Chip, pins: Pins, n: nat)
    requires Acked(c) && pins.go == 1 && pins.start == 0
    ensures Acked(Clocks(c, pins, n)) && Clocks(c, pins, n).boot == c.boot
    decreases n
  {
    if n > 0 {
      AckedStays(Clock(c, pins), pins, n - 1);
    }
  }

  lemma FewClocks(c: Chip, pins: Pins)
    requires Valid(c)
    ensures var c1 := Clock(c, pins); var c2 := Clock(c1, pins); var c3 := Clock(c2, pins);
            && Clocks(c, pins, 1) == c1 && Clocks(c, pins, 2) == c2 && Clocks(c, pins, 3) == c3
            && Clocks(c, pins, 4) == Clock(c3, pins)
  {
    var c3 := Clock(Clock(Clock(c, pins), pins), pins);
    hide Clock;
    assert Clocks(c3, pins, 1) == Clock(c3, pins);
  }

  /** HOST_GO raised on a settled chip: whatever the timing, HOST_STATUS rises after
      exactly four clocks, with the byte stored once and the counter stepped. */
  lemma RisePulse(c: Chip, pins: Pins, n: nat)
    requires Settled(c) && pins.go == 1 && pins.start == 0
    ensures n < 4 ==> Clocks(c, pins, n).status == 0
    ensures n >= 4 ==> Acked(Clocks(c, pins, n)) && Clocks(c, pins, n).boot == Counted(Stored(c.boot, pins.ui))
  {
    var c1 := Clock(c, pins);
    var c2 := Clock(c1, pins);
    var c3 := Clock(c2, pins);
    var c4 := Clock(c3, pins);
    FewClocks(c, pins);
    if n >= 4 {
      ClocksAdd(c, pins, 4, n - 4);
      AckedStays(c4, pins, n - 4);
    }
  }

  /** HOST_GO dropped on an acknowledged byte: HOST_STATUS falls after exactly four
      clocks, and by then the chip is ready for the next rise. */
  lemma FallPulse(c: Chip, pins: Pins, n: nat)
    requires Acked(c) && pins.go == 0 && pins.start == 0
    ensures n < 4 ==> Clocks(c, pins, n).status == 1
    ensures n >= 4 ==> Settled(Clocks(c, pins, n)) && BootIdle(Clocks(c, pins, n).boot, c.boot)
  {
    var c1 := Clock(c, pins);
    var c2 := Clock(c1, pins);
    var c3 := Clock(c2, pins);
    var c4 := Clock(c3, pins);
    FewClocks(c, pins);
    if n >= 4 {
      ClocksAdd(c, pins, 4, n - 4);
      SettledStays(c4, pins, n - 4);
    }
  }

  /** The same registers, with the acknowledge dropped. */
  predicate BootIdle(a: Boot, b: Boot) {
    a == Boot(b.address, b.full, false, b.echo, b.mem, b.log)
  }

  /** START high: seen by the synchronizer's second flop after two clocks. */
  predicate Starting(c: Chip) {
    Valid(c) && c.go == LOW && c.start.first == 1 && c.start.second == 1 && (c.start.previous == 0 <==> c.loading)
      && !c.boot.ack
  }

  lemma {:induction false} StartingStays(c: Chip, pins: Pins, n: nat)
    requires Starting(c) && pins.go == 0 && pins.start == 1
    ensures Starting(Clocks(c, pins, n)) && SameMemory(Clocks(c, pins, n), c)
    decreases n
  {
    if n > 0 {
      StartingStays(Clock(c, pins), pins, n - 1);
    }
  }

  predicate SameMemory(a: Chip, b: Chip) {
    a.boot.mem == b.boot.mem && a.boot.log == b.boot.log
  }

  lemma {:induction false} RunningStays(c: Chip, pins: Pins, n: nat)
    requires Valid(c) && !c.loading && c.go == LOW && pins.go == 0
    ensures !Clocks(c, pins, n).loading && Clocks(c, pins, n).go == LOW && SameMemory(Clocks(c, pins, n), c)
    decreases n
  {
    if n > 0 {
      RunningStays(Clock(c, pins), pins, n - 1);
    }
  }

  lemma StartRise(c: Chip, pins: Pins, n: nat)
    requires Settled(c) && pins.go == 0 && pins.start == 1 && n >= 2
    ensures Starting(Clocks(c, pins, n)) && SameMemory(Clocks(c, pins, n), c)
  {
    var c1 := Clock(c, pins);
    var c2 := Clock(c1, pins);
    ClocksAdd(c, pins, 2, n - 2);
    FewClocks(c, pins);
    StartingStays(c2, pins, n - 2);
  }

  /** Once START is low again one clock is enough: the chip has left LOAD. */
  lemma StartFall(c: Chip, pins: Pins, n: nat)
    requires Starting(c) && pins.go == 0 && n >= 1
    ensures !Clocks(c, pins, n).loading && Clocks(c, pins, n).go == LOW && SameMemory(Clocks(c, pins, n), c)
  {
    RunningStays(Clock(c, pins), pins, n - 1);
  }

  // ------------------------------------------------------------ any host at all

  /** Writes go to 0, 1, 2, ... in order and the memory holds what was written. */
  predicate Ordered(b: Boot) {
    && |b.log| <= |b.mem|
    && forall i :: 0 <= i < |b.log| ==> b.log[i].address == i && b.mem[i] == b.log[i].value
  }

  /** While loading, the counter is the number of bytes written, until it sticks at
      the last address, and the echo is its low byte. */
  predicate Coherent(c: Chip) {
    && Valid(c) && Ordered(c.boot)
    && (c.loading ==>
          && c.boot.echo == c.boot.address % 0x100
          && c.boot.address == (if |c.boot.log| == SRAM then SRAM - 1 else |c.boot.log|)
          && (c.boot.full <==> |c.boot.log| == SRAM))
  }

  lemma ClockCoherent(c: Chip, pins: Pins)
    requires Coherent(c)
    ensures Coherent(Clock(c, pins))
    ensures c.boot.log <= Clock(c, pins).boot.log
  {
  }

  /** Clocks with the pins changing freely from one to the next. */
  function History(c: Chip, pins: seq<Pins>): (r: Chip)
    requires Valid(c)
    ensures Valid(r)
    decreases |pins|
  {
    if pins == [] then c else History(Clock(c, pins[0]), pins[1..])
  }

  lemma {:induction false} HistorySnoc(c: Chip, pins: seq<Pins>, last: Pins)
    requires Valid(c)
    ensures History(c, pins + [last]) == Clock(History(c, pins), last)
    decreases |pins|
  {
    hide Clock;
    if pins == [] {
      assert ([] + [last])[1..] == [];
    } else {
      assert (pins + [last])[0] == pins[0] && (pins + [last])[1..] == pins[1..] + [last];
      HistorySnoc(Clock(c, pins[0]), pins[1..], last);
    }
  }

  /** START at the clock edge `k` from the first, low before it. */
  function StartAt(pins: seq<Pins>, k: int): Level {
    if 0 <= k < |pins| then pins[k].start else 0
  }

  /** Some clock edge before `n` sampled START high. */
  predicate StartSeen(pins: seq<Pins>, n: int) {
    exists k :: 0 <= k < n && k < |pins| && pins[k].start == 1
  }

  /** What a settled chip has become while HOST_GO stayed low. */
  predicate Quiescent(c: Chip, pins: seq<Pins>, r: Chip) {
    var n := |pins|;
    && Valid(r) && r.go == LOW && !r.boot.ack && SameMemory(r, c)
    && r.start == Flops(StartAt(pins, n - 1), StartAt(pins, n - 2), StartAt(pins, n - 3))
    && (r.loading <==> !StartSeen(pins, n - 2))
  }

  lemma QuiescentClock(c: Chip, pins: seq<Pins>, r: Chip, last: Pins)
    requires Valid(c) && Quiescent(c, pins, r) && last.go == 0
    ensures Quiescent(c, pins + [last], Clock(r, last))
  {
    var n, more := |pins|, pins + [last];
    assert forall k :: 0 <= k < n ==> more[k] == pins[k];
    SeenNext(pins, last);
    if StartAt(pins, n - 3) == 1 {
      assert pins[n - 3].start == 1;
      assert StartSeen(pins, n - 2);
    }
    hide StartSeen;
  }

  lemma SeenNext(pins: seq<Pins>, last: Pins)
    ensures StartSeen(pins + [last], |pins| - 1) <==> StartSeen(pins, |pins| - 2) || StartAt(pins, |pins| - 2) == 1
  {
    var n, more := |pins|, pins + [last];
    assert forall k :: 0 <= k < n ==> more[k] == pins[k];
    if n >= 2 && pins[n - 2].start == 1 {
      assert more[n - 2].start == 1;
    }
  }

  lemma {:induction false} SettledQuiescent(c: Chip, pins: seq<Pins>)
    requires Settled(c) && forall k :: 0 <= k < |pins| ==> pins[k].go == 0
    ensures Quiescent(c, pins, History(c, pins))
    decreases |pins|
  {
    if pins != [] {
      var n := |pins| - 1;
      SettledQuiescent(c, pins[..n]);
      assert pins[..n] + [pins[n]] == pins;
      HistorySnoc(c, pins[..n], pins[n]);
      QuiescentClock(c, pins[..n], History(c, pins[..n]), pins[n]);
      hide Quiescent, History;
    }
  }

  /** Exactly when START works: with HOST_GO low, a settled chip has left LOAD if and only
      if some clock edge sampled START high and two more have passed since, whatever START
      did otherwise. Its memory is as it was. */
  lemma LoadLeftExactly(c: Chip, pins: seq<Pins>)
    requires Settled(c) && forall k :: 0 <= k < |pins| ==> pins[k].go == 0
    ensures !History(c, pins).loading <==> exists k :: 0 <= k < |pins| - 2 && pins[k].start == 1
    ensures SameMemory(History(c, pins), c)
  {
    SettledQuiescent(c, pins);
  }

  /** For every sequence of pin levels after reset, however it violates the protocol,
      no address is written twice or out of order, none past 1023, and the echo always
      tells the number of bytes held. */
  lemma {:induction false} EveryHistoryCoherent(c: Chip, pins: seq<Pins>)
    requires Coherent(c)
    ensures Coherent(History(c, pins)) && c.boot.log <= History(c, pins).boot.log
    decreases |pins|
  {
    if pins != [] {
      ClockCoherent(c, pins[0]);
      EveryHistoryCoherent(Clock(c, pins[0]), pins[1..]);
    }
  }

  lemma ResetCoherent(mem: seq<Byte>)
    requires |mem| == SRAM
    ensures Coherent(ResetChip(mem))
  {
  }
}
