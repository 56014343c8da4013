/** The CAN receiver node, clock cycle by clock cycle: hard sync on the start of
    frame, one sample per bit, and a full re-decode of the raw bits at each sample. */
module CanBus {
  import opened Bits
  import opened Crc15
  import opened CanStuffing
  import opened CanFrame
  import opened Wrappers

  const BIT: nat := 1000
  const SAMPLE: nat := 750

  datatype Fault =
    | StuffFault(at: nat)
    | DelimiterDominant
    | CrcMismatch
    | AckNotDominant
    | EndNotRecessive(tail: seq<Binary>)

  datatype Frame = Frame(id: nat, data: seq<nat>)

  /** How the test sets the node up: whether it acknowledges, the stuffed bits of a
      competing transmitter, and a bit index forced dominant. */
  datatype Setup = Setup(ack: bool, competitor: Option<seq<Binary>>, force: Option<nat>)

  /** The fields of the node that one cycle reads or writes. */
  datatype Node = Node(t: nat, idle: nat, t0: Option<nat>, raw: seq<Binary>, ackFrom: Option<nat>,
                       errors: seq<Fault>, frames: seq<Frame>, done: bool)

  function And(a: Binary, b: Binary): Binary {
    if a == 1 then b else 0
  }

  /** What the node itself puts on the wired-AND bus. */
  function Drive(n: Node, setup: Setup): Binary {
    if n.t0.None? then 1
    else
      var k := (n.t - n.t0.value) / BIT;
      if setup.competitor.Some? && 0 <= k < |setup.competitor.value| && setup.competitor.value[k] == 0 then 0
      else if setup.force.Some? && setup.force.value == k then 0
      else if n.ackFrom.Some? && n.ackFrom.value <= n.t < n.ackFrom.value + BIT then 0
      else 1
  }

  function Ended(n: Node, errors: seq<Fault>, frames: seq<Frame>): Node {
    Node(n.t, 0, None, n.raw, n.ackFrom, errors, frames, true)
  }

  function AckDecision(n: Node, setup: Setup, un: seq<Binary>, delimiter: Binary): Node
    requires n.t0.Some? && Complete(un)
  {
    var ackFrom: Option<nat> := if CrcOk(un) && setup.ack then Some(n.t0.value + |n.raw| * BIT) else n.ackFrom;
    var late := if delimiter != 1 then [DelimiterDominant] else [];
    var bad := if !CrcOk(un) then [CrcMismatch] else [];
    Node(n.t, n.idle, n.t0, n.raw, ackFrom, n.errors + late + bad, n.frames, n.done)
  }

  function TailFaults(setup: Setup, tail: seq<Binary>): seq<Fault>
    requires |tail| == 10
  {
    (if tail[1] != 0 && setup.ack then [AckNotDominant] else [])
    + (if exists k :: 2 <= k < 10 && tail[k] != 1 then [EndNotRecessive(tail)] else [])
  }

  /** The raw bits after a complete frame: delimiter, acknowledgement, end of frame. */
  function AfterFrame(n: Node, setup: Setup, un: seq<Binary>, tail: seq<Binary>): Node
    requires n.t0.Some? && Complete(un)
  {
    if |tail| == 1 then AckDecision(n, setup, un, tail[0])
    else if |tail| == 10 then
      Ended(n, n.errors + TailFaults(setup, tail), n.frames + [Frame(Identifier(un), Data(un, DataCount(un)))])
    else n
  }

  function Decoded(n: Node, setup: Setup): Node
    requires n.t0.Some?
  {
    match ScanAll(n.raw)
    case StuffError(at) => Ended(n, n.errors + [StuffFault(at)], n.frames)
    case Scanned(un, run, _, next) =>
      if !Complete(un) || (run == 5 && next == |n.raw|) then n
      else AfterFrame(n, setup, un, n.raw[next..])
  }

  function Sampled(n: Node, bus: Binary): Node {
    Node(n.t, n.idle, n.t0, n.raw + [bus], n.ackFrom, n.errors, n.frames, n.done)
  }

  function Received(n: Node, setup: Setup, bus: Binary): Node {
    if n.t0.None? then
      if bus == 1 then Node(n.t, n.idle + 1, None, n.raw, n.ackFrom, n.errors, n.frames, n.done)
      else if n.idle >= 11 * BIT then Node(n.t, 0, Some(n.t), [], None, n.errors, n.frames, n.done)
      else Node(n.t, 0, None, n.raw, n.ackFrom, n.errors, n.frames, n.done)
    else if (n.t - n.t0.value) % BIT == SAMPLE then Decoded(Sampled(n, bus), setup)
    else n
  }

  function At(n: Node, t: nat): Node {
    Node(t, n.idle, n.t0, n.raw, n.ackFrom, n.errors, n.frames, n.done)
  }

  /** One clock cycle with the transmitter's pin at `chip`. */
  function Cycle(n: Node, setup: Setup, chip: Binary): Node {
    var m := At(n, n.t + 1);
    Received(m, setup, And(chip, Drive(m, setup)))
  }

  /** The test's bus object. */
  class Bus {
    const setup: Setup
    var t: nat
    var idle: nat
    var t0: Option<nat>
    var raw: seq<Binary>
    var ackFrom: Option<nat>
    var errors: seq<Fault>
    var frames: seq<Frame>
    var done: bool

    ghost function View(): Node
      reads this
    {
      Node(t, idle, t0, raw, ackFrom, errors, frames, done)
    }

    constructor (setup: Setup)
      ensures this.setup == setup && View() == Node(0, 0, None, [], None, [], [], false)
    {
      this.setup := setup;
      t, idle, t0, raw, ackFrom, errors, frames, done := 0, 0, None, [], None, [], [], false;
    }

    method End(err: Option<Fault>)
      modifies this
      ensures View() == Ended(old(View()), old(errors) + (if err.Some? then [err.value] else []), old(frames))
    {
      if err.Some? {
        errors := errors + [err.value];
      }
      t0, idle, done := None, 0, true;
    }

    method Decode()
      requires t0.Some?
      modifies this
      ensures View() == Decoded(old(View()), setup)
    {
      var un: seq<Binary>, run, last, i, n := [], 0, NO_BIT, 0, |raw|;
      var need: Option<nat> := None;
      while i < n
        invariant i <= n == |raw| && View() == old(View())
        invariant ScanAll(raw) == Scan(raw, un, run, last, i)
        invariant need.Some? <==> |un| >= HEADER
        invariant need.Some? ==> need.value == Need(un) >= |un|
      {
        var b := raw[i];
        if run == 5 {
          if b == last {
            End(Some(StuffFault(i)));
            return;
          }
          run, last, i := 1, b, i + 1;
        } else {
          if need.Some? && |un| == need.value {
            break;
          }
          ghost var before := un;
          un := un + [b];
          assert |before| >= HEADER ==> un[15..HEADER] == before[15..HEADER];
          run := if b == last then run + 1 else 1;
          last := b;
          i := i + 1;
          if |un| == HEADER {
            var dlc := FromMsb(un[15..HEADER]);
            need := Some(HEADER + 8 * (if dlc < 8 then dlc else 8) + 15);
          }
        }
      }
      assert ScanAll(raw) == Scanned(un, run, last, i);
      if need.None? || |un| < need.value {
        return;
      }
      if run == 5 && i == n {
        return;
      }
      var tail := raw[i..];
      Conclude(un, tail);
    }

    /** The last part of the decoder: a complete frame and the raw bits after it. */
    method Conclude(un: seq<Binary>, tail: seq<Binary>)
      requires t0.Some? && Complete(un)
      modifies this
      ensures View() == AfterFrame(old(View()), setup, un, tail)
    {
      var need := Need(un);
      assert 15 <= need <= |un| && HEADER + 8 * DataCount(un) <= |un|;
      hide Data, DataCount, Identifier, Crc, FromMsb, Need, Complete;
      if |tail| == 1 {
        var crc := ComputeCrc(un[..need - 15]);
        var ok := crc == FromMsb(un[need - 15..need]);
        if tail[0] != 1 {
          errors := errors + [DelimiterDominant];
        }
        if ok && setup.ack {
          ackFrom := Some(t0.value + |raw| * BIT);
        }
        if !ok {
          errors := errors + [CrcMismatch];
        }
      }
      if |tail| == 10 {
        if tail[1] != 0 && setup.ack {
          errors := errors + [AckNotDominant];
        }
        if tail[2] != 1 || exists k :: 3 <= k < 10 && tail[k] != 1 {
          errors := errors + [EndNotRecessive(tail)];
        }
        var data := Data(un, DataCount(un));
        frames := frames + [Frame(Identifier(un), data)];
        End(None);
      }
    }

    method Receive(bus: Binary)
      modifies this
      ensures View() == Received(old(View()), setup, bus)
    {
      if t0.None? {
        if bus == 1 {
          idle := idle + 1;
        } else {
          if idle >= 11 * BIT {
            t0, raw, ackFrom := Some(t), [], None;
          }
          idle := 0;
        }
        return;
      }
      if (t - t0.value) % BIT == SAMPLE {
        raw := raw + [bus];
        Decode();
      }
    }

    /** One turn of the bus process. */
    method Tick(chip: Binary)
      modifies this
      ensures View() == Cycle(old(View()), setup, chip)
    {
      hide Received, Drive;
      t := t + 1;
      var bus := And(chip, Drive(Node(t, idle, t0, raw, ackFrom, errors, frames, done), setup));
      Receive(bus);
    }
  }

  // ------------------------------------------------------------ one bit time

  /** The node after `cycles` cycles with the transmitter's pin at `chip`. */
  function Hold(n: Node, setup: Setup, chip: Binary, cycles: nat): Node
    decreases cycles
  {
    if cycles == 0 then n else Hold(Cycle(n, setup, chip), setup, chip, cycles - 1)
  }

  lemma {:induction false} HoldSplit(n: Node, setup: Setup, chip: Binary, a: nat, b: nat)
    ensures Hold(n, setup, chip, a + b) == Hold(Hold(n, setup, chip, a), setup, chip, b)
    decreases a
  {
    if a > 0 {
      HoldSplit(Cycle(n, setup, chip), setup, chip, a - 1, b);
    }
  }

  /** Away from the sample point a cycle in a frame only advances time. `off` is the
      last cycle done of bit `k`, -1 before its first. */
  lemma {:induction false} Quiet(n: Node, setup: Setup, chip: Binary, cycles: nat, z: nat, k: nat, off: int)
    requires n.t0 == Some(z) && n.t == z + k * BIT + off && off >= -1
    requires off + cycles < SAMPLE || (SAMPLE <= off && off + cycles < BIT)
    ensures Hold(n, setup, chip, cycles) == At(n, n.t + cycles)
    decreases cycles
  {
    hide Cycle;
    if cycles > 0 {
      QuietCycle(n, setup, chip, z, k, off);
      Quiet(At(n, n.t + 1), setup, chip, cycles - 1, z, k, off + 1);
    }
  }

  /** A cycle that is not a sampling point. */
  lemma QuietCycle(n: Node, setup: Setup, chip: Binary, z: nat, k: nat, off: int)
    requires n.t0 == Some(z) && n.t == z + k * BIT + off && -1 <= off < BIT - 1 && off + 1 != SAMPLE
    ensures Cycle(n, setup, chip) == At(n, n.t + 1)
  {
    DivModUnique(n.t + 1 - z, BIT, k, off + 1);
    hide Drive;
  }

  /** After the end of a frame the bus is recessive and the idle count runs. */
  lemma {:induction false} Idle(n: Node, setup: Setup, cycles: nat)
    requires n.t0.None?
    ensures Hold(n, setup, 1, cycles) ==
            Node(n.t + cycles, n.idle + cycles, None, n.raw, n.ackFrom, n.errors, n.frames, n.done)
    decreases cycles
  {
    if cycles > 0 {
      Idle(Cycle(n, setup, 1), setup, cycles - 1);
    }
  }

  /** A node that only listens and, if it is set to, acknowledges. */
  function Listener(ack: bool): Setup {
    Setup(ack, None, None)
  }

  /** What the listener drives in bit `k`: its acknowledgement, in that bit alone. */
  function SlotDrive(n: Node, k: nat): Binary
    requires n.t0.Some?
  {
    if n.ackFrom == Some(n.t0.value + k * BIT) then 0 else 1
  }

  predicate StartsSlot(t: nat, t0: nat, k: nat) {
    t == t0 + k * BIT
  }

  ghost predicate OnGrid(n: Node) {
    n.t0.Some? && (n.ackFrom.Some? ==> exists a: nat :: StartsSlot(n.ackFrom.value, n.t0.value, a))
  }

  lemma DriveInSlot(n: Node, ack: bool, k: nat, off: nat)
    requires OnGrid(n) && n.t == n.t0.value + k * BIT + off && off < BIT
    ensures Drive(n, Listener(ack)) == SlotDrive(n, k)
  {
    if n.ackFrom.Some? {
      var a: nat :| StartsSlot(n.ackFrom.value, n.t0.value, a);
      if a < k {
        assert a * BIT + BIT <= k * BIT;
      } else if a > k {
        assert k * BIT + BIT <= a * BIT;
      }
    }
  }

  /** The decode that bit `k` brings about. */
  function BitStep(n: Node, ack: bool, chip: Binary, k: nat): Node
    requires n.t0.Some?
  {
    Decoded(Sampled(At(n, n.t0.value + k * BIT + SAMPLE), And(chip, SlotDrive(n, k))), Listener(ack))
  }

  lemma GridMoved(n: Node, ack: bool, chip: Binary, k: nat, t: nat)
    requires OnGrid(n)
    ensures var m := At(n, t);
            OnGrid(m) && m.t == t && m.t0 == n.t0 && BitStep(m, ack, chip, k) == BitStep(n, ack, chip, k)
  {
    hide Decoded;
  }

  /** A bit time is quiet, then one sample, then quiet again. */
  lemma BitHeld(n: Node, ack: bool, chip: Binary, k: nat, off: int)
    requires OnGrid(n) && -1 <= off <= 0 && n.t == n.t0.value + k * BIT + off
    ensures Hold(n, Listener(ack), chip, BIT - 1 - off) ==
            Hold(BitStep(n, ack, chip, k), Listener(ack), chip, BIT - 1 - SAMPLE)
  {
    assert 0 < SAMPLE < BIT;
    GridMoved(n, ack, chip, k, n.t + (SAMPLE - 1 - off));
    hide *;
    var setup, before := Listener(ack), SAMPLE - 1 - off;
    var m := At(n, n.t + before);
    Quiet(n, setup, chip, before, n.t0.value, k, off);
    HoldSplit(n, setup, chip, before, BIT - SAMPLE);
    UnfoldHold(m, setup, chip, BIT - SAMPLE);
    SampleCycle(m, ack, chip, k);
  }

  lemma UnfoldHold(n: Node, setup: Setup, chip: Binary, cycles: nat)
    requires cycles > 0
    ensures Hold(n, setup, chip, cycles) == Hold(Cycle(n, setup, chip), setup, chip, cycles - 1)
  {
  }

  lemma SampleCycle(m: Node, ack: bool, chip: Binary, k: nat)
    requires OnGrid(m) && m.t + 1 == m.t0.value + k * BIT + SAMPLE
    ensures Cycle(m, Listener(ack), chip) == BitStep(m, ack, chip, k)
  {
    var after := At(m, m.t + 1);
    assert OnGrid(after);
    DriveInSlot(after, ack, k, SAMPLE);
    DivModUnique(after.t - m.t0.value, BIT, k, SAMPLE);
    hide Decoded;
  }

  // ------------------------------------------------------------ a whole frame

  /** The transmitter's pin holds each bit for one bit time. */
  function Send(n: Node, setup: Setup, bits: seq<Binary>): Node
    decreases |bits|
  {
    if bits == [] then n else Send(Hold(n, setup, bits[0], BIT), setup, bits[1..])
  }

  /** Delimiter, acknowledgement slot, its delimiter and end of frame, as sent. */
  const RECESSIVE: seq<Binary> := [1, 1, 1, 1, 1, 1, 1, 1, 1, 1]

  /** The same ten bits on the bus. */
  function Tail(ack: bool): seq<Binary> {
    [1, if ack then 0 else 1, 1, 1, 1, 1, 1, 1, 1, 1]
  }

  function AckSlot(z: nat, whole: nat, ack: bool): Option<nat> {
    if ack then Some(z + (whole + 1) * BIT) else None
  }

  /** The node after `j` bit times of a frame that began when `n` was idle. */
  function Midway(n: Node, ack: bool, f: seq<Binary>, j: nat): Node
    requires j <= |Stuff(f)| + 10
  {
    var z, whole := n.t + 1, |Stuff(f)|;
    Node(n.t + j * BIT, 0, Some(z), (Stuff(f) + Tail(ack))[..j],
         if j > whole then AckSlot(z, whole, ack) else None, n.errors, n.frames, n.done)
  }

  lemma MidwayOnGrid(n: Node, ack: bool, f: seq<Binary>, j: nat)
    requires j <= |Stuff(f)| + 10
    ensures OnGrid(Midway(n, ack, f, j))
    ensures SlotDrive(Midway(n, ack, f, j), j) == (if ack && j == |Stuff(f)| + 1 then 0 else 1)
  {
    hide Stuff;
    var whole := |Stuff(f)|;
    assert StartsSlot(n.t + 1 + (whole + 1) * BIT, n.t + 1, whole + 1);
  }

  /** The bus carries the stuffed frame, then the tail with the slot filled in. */
  lemma BusBit(n: Node, ack: bool, f: seq<Binary>, j: nat)
    requires j < |Stuff(f)| + 10
    ensures And((Stuff(f) + RECESSIVE)[j], SlotDrive(Midway(n, ack, f, j), j)) == (Stuff(f) + Tail(ack))[j]
  {
    MidwayOnGrid(n, ack, f, j);
    hide Stuff, Midway;
  }

  ghost predicate GoodFrame(f: seq<Binary>) {
    |f| >= HEADER && Need(f) == |f| && CrcOk(f)
  }

  function Delivered(f: seq<Binary>): Frame
    requires |f| >= HEADER && Need(f) == |f|
  {
    Frame(Identifier(f), Data(f, DataCount(f)))
  }

  function Acknowledged(m: Node, ack: bool): Node
    requires m.t0.Some?
  {
    var ackFrom: Option<nat> := if ack then Some(m.t0.value + |m.raw| * BIT) else m.ackFrom;
    Node(m.t, m.idle, m.t0, m.raw, ackFrom, m.errors, m.frames, m.done)
  }

  lemma NoTailFaults(ack: bool)
    ensures TailFaults(Listener(ack), Tail(ack)) == []
  {
    assert forall k :: 2 <= k < 10 ==> Tail(ack)[k] == 1;
  }

  /** The tail as far as `c` bits: the delimiter schedules the acknowledgement, the
      tenth bit ends the frame, and no other bit does anything. */
  lemma TailStep(m: Node, ack: bool, f: seq<Binary>, c: nat)
    requires GoodFrame(f) && m.t0.Some? && c <= 10
    ensures Complete(f)
    ensures AfterFrame(m, Listener(ack), f, Tail(ack)[..c]) ==
            if c == 1 then Acknowledged(m, ack)
            else if c == 10 then Ended(m, m.errors, m.frames + [Delivered(f)])
            else m
  {
    assert Complete(f);
    NoTailFaults(ack);
    assert Tail(ack)[..10] == Tail(ack);
    assert c >= 1 ==> Tail(ack)[..c][0] == 1;
    hide Complete, CrcOk, Identifier, Data, DataCount, Need, Tail, TailFaults;
  }

  /** Decoding a prefix of the frame on the bus does nothing before the frame is
      complete, and afterwards acts on the tail bits seen so far. */
  lemma DecodePrefix(m: Node, ack: bool, f: seq<Binary>, j: nat)
    requires GoodFrame(f) && j <= |Stuff(f)| + 10 && m.t0.Some? && m.raw == (Stuff(f) + Tail(ack))[..j]
    ensures Complete(f)
    ensures Decoded(m, Listener(ack)) ==
            if j < |Stuff(f)| then m else AfterFrame(m, Listener(ack), f, Tail(ack)[..j - |Stuff(f)|])
  {
    assert Complete(f);
    ScanOfStuffed(f, m.raw, Tail(ack));
    hide Stuff, ScanAll, Complete, CrcOk, Need, AfterFrame;
    if j >= |Stuff(f)| {
      assert m.raw[|Stuff(f)|..] == Tail(ack)[..j - |Stuff(f)|];
    }
  }

  /** The node with bit `j` sampled at `t`, before the decode. */
  function WithBit(n: Node, ack: bool, f: seq<Binary>, j: nat, t: nat): Node
    requires j < |Stuff(f)| + 10
  {
    At(Sampled(Midway(n, ack, f, j), (Stuff(f) + Tail(ack))[j]), t)
  }

  lemma MidwayGrows(n: Node, ack: bool, f: seq<Binary>, j: nat, t: nat)
    requires j < |Stuff(f)| + 10
    ensures var m := WithBit(n, ack, f, j, t);
            && m.t0 == Some(n.t + 1) && m.errors == n.errors && m.frames == n.frames
            && m.raw == (Stuff(f) + Tail(ack))[..j + 1]
            && (if j == |Stuff(f)| then Acknowledged(m, ack) else m) == At(Midway(n, ack, f, j + 1), t)
  {
    TailLength(ack);
    hide Stuff, Tail;
  }

  /** The decode after bit `j`. */
  lemma DecodeStep(n: Node, ack: bool, f: seq<Binary>, j: nat, t: nat)
    requires GoodFrame(f) && j < |Stuff(f)| + 10
    ensures var m := WithBit(n, ack, f, j, t);
            && m.t0.Some?
            && Decoded(m, Listener(ack)) ==
               if j + 1 < |Stuff(f)| + 10 then At(Midway(n, ack, f, j + 1), t)
               else Ended(m, n.errors, n.frames + [Delivered(f)])
  {
    hide *;
    var m := WithBit(n, ack, f, j, t);
    MidwayGrows(n, ack, f, j, t);
    DecodePrefix(m, ack, f, j + 1);
    if j + 1 >= |Stuff(f)| {
      TailStep(m, ack, f, j + 1 - |Stuff(f)|);
    }
  }

  /** When sample `j` is taken. */
  function SampleTime(n: Node, j: nat): nat {
    n.t + 1 + j * BIT + SAMPLE
  }

  lemma GoodSize(f: seq<Binary>)
    requires GoodFrame(f)
    ensures |f| >= HEADER && Need(f) == |f|
  {
  }

  /** What a bit time does to the node is sample the bus and decode. */
  lemma BitStepIs(n: Node, ack: bool, f: seq<Binary>, j: nat)
    requires j < |Stuff(f)| + 10
    ensures Midway(n, ack, f, j).t0.Some? && WithBit(n, ack, f, j, SampleTime(n, j)).t0.Some?
    ensures BitStep(Midway(n, ack, f, j), ack, (Stuff(f) + RECESSIVE)[j], j)
            == Decoded(WithBit(n, ack, f, j, SampleTime(n, j)), Listener(ack))
  {
    BusBit(n, ack, f, j);
    hide Stuff, Tail, Decoded, SlotDrive, And;
  }

  lemma LastBit(n: Node, ack: bool, f: seq<Binary>, t: nat, errors: seq<Fault>, frames: seq<Frame>)
    ensures Ended(WithBit(n, ack, f, |Stuff(f)| + 9, t), errors, frames) ==
            Node(t, 0, None, Stuff(f) + Tail(ack), AckSlot(n.t + 1, |Stuff(f)|, ack), errors, frames, true)
  {
    var bits := Stuff(f) + Tail(ack);
    TailLength(ack);
    hide Stuff, Tail;
    assert bits[..|Stuff(f)| + 9] + [bits[|Stuff(f)| + 9]] == bits;
  }

  lemma MidwayStep(n: Node, ack: bool, f: seq<Binary>, j: nat)
    requires GoodFrame(f) && j < |Stuff(f)| + 10
    ensures BitStep(Midway(n, ack, f, j), ack, (Stuff(f) + RECESSIVE)[j], j) ==
            if j + 1 < |Stuff(f)| + 10 then At(Midway(n, ack, f, j + 1), SampleTime(n, j))
            else Node(SampleTime(n, j), 0, None, Stuff(f) + Tail(ack), AckSlot(n.t + 1, |Stuff(f)|, ack),
                      n.errors, n.frames + [Delivered(f)], true)
  {
    hide *;
    BitStepIs(n, ack, f, j);
    DecodeStep(n, ack, f, j, SampleTime(n, j));
    GoodSize(f);
    LastBit(n, ack, f, SampleTime(n, j), n.errors, n.frames + [Delivered(f)]);
  }

  lemma TailLength(ack: bool)
    ensures |Tail(ack)| == 10
  {
  }

  /** From the end of bit `j - 1` to the end of bit `j`. */
  lemma FrameStep(n: Node, ack: bool, f: seq<Binary>, j: nat)
    requires GoodFrame(f) && 1 <= j < |Stuff(f)| + 9
    ensures Hold(Midway(n, ack, f, j), Listener(ack), (Stuff(f) + RECESSIVE)[j], BIT) == Midway(n, ack, f, j + 1)
  {
    hide *;
    TenthBit(f);
    MidwayOnGrid(n, ack, f, j);
    MidwayStep(n, ack, f, j);
    BitRest(n, ack, f, j);
    BitHeld(Midway(n, ack, f, j), ack, (Stuff(f) + RECESSIVE)[j], j, -1);
  }

  /** After sample `j` the bit runs out quietly. */
  lemma BitRest(n: Node, ack: bool, f: seq<Binary>, j: nat)
    requires j + 1 <= |Stuff(f)| + 10
    ensures Midway(n, ack, f, j).t0 == Some(n.t + 1) && Midway(n, ack, f, j).t == n.t + 1 + j * BIT - 1
    ensures Hold(At(Midway(n, ack, f, j + 1), SampleTime(n, j)), Listener(ack), (Stuff(f) + RECESSIVE)[j],
            BIT - 1 - SAMPLE)
            == Midway(n, ack, f, j + 1)
  {
    Quiet(At(Midway(n, ack, f, j + 1), SampleTime(n, j)), Listener(ack), (Stuff(f) + RECESSIVE)[j], BIT - 1 - SAMPLE,
          n.t + 1, j, SAMPLE);
    hide Stuff, Tail, Hold;
  }

  /** The node just after the tenth recessive bit: frame recorded once, no new error,
      the acknowledgement scheduled for the bit after the delimiter, listening again. */
  function Recorded(n: Node, ack: bool, f: seq<Binary>): Node
    requires |f| >= HEADER && Need(f) == |f|
  {
    var whole := |Stuff(f)|;
    Node(n.t + (whole + 10) * BIT, BIT - 1 - SAMPLE, None, Stuff(f) + Tail(ack), AckSlot(n.t + 1, whole, ack),
         n.errors, n.frames + [Delivered(f)], true)
  }

  lemma LastStep(n: Node, ack: bool, f: seq<Binary>)
    requires GoodFrame(f)
    ensures Hold(Midway(n, ack, f, |Stuff(f)| + 9), Listener(ack), 1, BIT) == Recorded(n, ack, f)
  {
    var j := |Stuff(f)| + 9;
    assert (Stuff(f) + RECESSIVE)[j] == RECESSIVE[9] == 1;
    MidwayOnGrid(n, ack, f, j);
    MidwayStep(n, ack, f, j);
    BitHeld(Midway(n, ack, f, j), ack, 1, j, -1);
    Idle(BitStep(Midway(n, ack, f, j), ack, 1, j), Listener(ack), BIT - 1 - SAMPLE);
    hide Stuff, Tail, Hold, BitStep, Need, CrcOk, Delivered, OnGrid, SlotDrive;
  }

  /** The first cycle of the start-of-frame bit syncs the node. */
  lemma SyncCycle(n: Node, ack: bool, f: seq<Binary>, m: Node)
    requires n.t0.None? && n.idle >= 11 * BIT && m == At(Midway(n, ack, f, 0), n.t + 1)
    ensures Cycle(n, Listener(ack), 0) == m
    ensures OnGrid(m) && m.t == m.t0.value + 0 * BIT + 0
    ensures BitStep(m, ack, 0, 0) == BitStep(Midway(n, ack, f, 0), ack, 0, 0)
  {
    hide Stuff, Tail, Decoded;
  }

  lemma FirstStep(n: Node, ack: bool, f: seq<Binary>)
    requires GoodFrame(f) && n.t0.None? && n.idle >= 11 * BIT && (Stuff(f) + RECESSIVE)[0] == 0
    ensures Hold(n, Listener(ack), 0, BIT) == Midway(n, ack, f, 1)
  {
    assert BIT > 0;
    hide *;
    var m := At(Midway(n, ack, f, 0), n.t + 1);
    SyncCycle(n, ack, f, m);
    UnfoldHold(n, Listener(ack), 0, BIT);
    MidwayStep(n, ack, f, 0);
    BitHeld(m, ack, 0, 0, 0);
    BitRest(n, ack, f, 0);
  }

  lemma TenthBit(f: seq<Binary>)
    ensures var bits := Stuff(f) + RECESSIVE;
            |bits| == |Stuff(f)| + 10 && bits[|Stuff(f)| + 9] == 1 && bits[|Stuff(f)| + 10..] == []
  {
    hide Stuff;
  }

  lemma SendNone(n: Node, setup: Setup)
    ensures Send(n, setup, []) == n
  {
  }

  lemma {:induction false} SendFrom(n: Node, ack: bool, f: seq<Binary>, j: nat)
    requires GoodFrame(f) && 1 <= j <= |Stuff(f)| + 9
    ensures Send(Midway(n, ack, f, j), Listener(ack), (Stuff(f) + RECESSIVE)[j..]) == Recorded(n, ack, f)
    decreases |Stuff(f)| + 9 - j
  {
    hide *;
    TenthBit(f);
    UnfoldSend(Midway(n, ack, f, j), Listener(ack), Stuff(f) + RECESSIVE, j);
    if j < |Stuff(f)| + 9 {
      FrameStep(n, ack, f, j);
      SendFrom(n, ack, f, j + 1);
    } else {
      GoodSize(f);
      LastStep(n, ack, f);
      SendNone(Recorded(n, ack, f), Listener(ack));
    }
  }

  lemma UnfoldSend(n: Node, setup: Setup, bits: seq<Binary>, j: nat)
    requires j < |bits|
    ensures Send(n, setup, bits[j..]) == Send(Hold(n, setup, bits[j], BIT), setup, bits[j + 1..])
  {
    assert bits[j..][0] == bits[j] && bits[j..][1..] == bits[j + 1..];
    hide Hold;
  }

  /** For every 11-bit identifier and up to eight data bytes: a node that has seen
      eleven idle bit times, fed the stuffed frame cycle by cycle, records exactly that
      frame, once and without error, acknowledges in exactly the bit after the CRC
      delimiter, and is listening again at the tenth bit after the frame. */
  lemma FrameDelivered(n: Node, ack: bool, id: nat, data: seq<Byte>)
    requires n.t0.None? && n.idle >= 11 * BIT && id < 0x800 && |data| <= 8
    ensures var whole := |Stuff(FrameBits(id, data))|;
            Send(n, Listener(ack), Stuff(FrameBits(id, data)) + RECESSIVE) ==
            Node(n.t + (whole + 10) * BIT, BIT - 1 - SAMPLE, None, Stuff(FrameBits(id, data)) + Tail(ack),
                 if ack then Some(n.t + 1 + (whole + 1) * BIT) else None,
                 n.errors, n.frames + [Frame(id, data)], true)
  {
    hide *;
    var f := FrameBits(id, data);
    FrameIsGood(id, data);
    StartsDominant(id, data);
    var bits := Stuff(f) + RECESSIVE;
    UnfoldSend(n, Listener(ack), bits, 0);
    assert bits[0..] == bits && bits[0] == 0;
    FirstStep(n, ack, f);
    SendFrom(n, ack, f, 1);
    RecordedIs(n, ack, id, data);
  }

  lemma FrameIsGood(id: nat, data: seq<Byte>)
    requires id < 0x800 && |data| <= 8
    ensures GoodFrame(FrameBits(id, data)) && Delivered(FrameBits(id, data)) == Frame(id, data)
  {
    FrameFields(id, data);
    hide CrcOk, Need, Data, DataCount, Identifier, FrameBits;
  }

  lemma RecordedIs(n: Node, ack: bool, id: nat, data: seq<Byte>)
    requires id < 0x800 && |data| <= 8
    ensures GoodFrame(FrameBits(id, data))
    ensures var f := FrameBits(id, data);
            Recorded(n, ack, f) == Node(n.t + (|Stuff(f)| + 10) * BIT, BIT - 1 - SAMPLE, None, Stuff(f) + Tail(ack),
                 if ack then Some(n.t + 1 + (|Stuff(f)| + 1) * BIT) else None,
                 n.errors, n.frames + [Frame(id, data)], true)
  {
    hide *;
    FrameIsGood(id, data);
    RecordedNode(n, ack, FrameBits(id, data));
  }

  lemma RecordedNode(n: Node, ack: bool, f: seq<Binary>)
    requires GoodFrame(f)
    ensures Recorded(n, ack, f) ==
            Node(n.t + (|Stuff(f)| + 10) * BIT, BIT - 1 - SAMPLE, None, Stuff(f) + Tail(ack),
                 if ack then Some(n.t + 1 + (|Stuff(f)| + 1) * BIT) else None,
                 n.errors, n.frames + [Delivered(f)], true)
  {
    hide CrcOk, Need, Delivered, Stuff, Tail;
  }

  lemma StartsDominant(id: nat, data: seq<Byte>)
    ensures |Stuff(FrameBits(id, data))| > 0 && Stuff(FrameBits(id, data))[0] == 0
  {
    var f := FrameBits(id, data);
    assert f[0] == 0 by {
      hide MsbFirst, Crc;
    }
    hide FrameBits;
  }

  /** The raw bits before the tail are exactly the stuffing of a complete frame. */
  predicate ReadsAs(raw: seq<Binary>, un: seq<Binary>, tail: nat) {
    |un| >= HEADER && |un| == Need(un) && tail <= |raw| && raw[..|raw| - tail] == Stuff(un)
  }

  /** On any bus whatever, a decode that records a frame or schedules an acknowledgement
      has read the exact stuffing of that frame, with the tenth tail bit or the delimiter
      just sampled, and it acknowledges only when the CRC matches and it is set to. */
  lemma OnlyStuffedFrames(n: Node, setup: Setup)
    requires n.t0.Some?
    ensures var d := Decoded(n, setup);
            && (d.frames != n.frames ==>
                  exists un :: ReadsAs(n.raw, un, 10) && d.frames == n.frames + [Delivered(un)])
            && (d.ackFrom != n.ackFrom ==>
                  && setup.ack && d.ackFrom == Some(n.t0.value + |n.raw| * BIT)
                  && exists un :: ReadsAs(n.raw, un, 1) && CrcOk(un))
  {
    var r := ScanAll(n.raw);
    if r.Scanned? && Complete(r.un) && !(r.run == 5 && r.next == |n.raw|) {
      ScanIsExactFrom(n.raw, [], 0, NO_BIT, 0);
      ScanIsExact(n.raw);
      ScanStopsAtNeed(n.raw, [], 0, NO_BIT, 0);
      assert Delivered(r.un) == Frame(Identifier(r.un), Data(r.un, DataCount(r.un)));
      hide ScanAll, Stuff, CrcOk, Complete, Need;
      var tail := |n.raw| - r.next;
      assert ReadsAs(n.raw, r.un, tail);
    }
  }
}
