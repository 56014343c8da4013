/** What the CAN receiver makes of any raw bits at all: exactly when each fault is recorded,
    and that no corruption within fifteen bits is ever taken for a clean frame. */
module CanFaults {
  import opened Bits
  import opened Crc15
  import opened CanStuffing
  import opened CanFrame
  import opened CanBus
  import opened Wrappers

  // ------------------------------------------------------------ six equal bits

  predicate SixEqual(raw: seq<Binary>, at: nat) {
    5 <= at < |raw| && forall k :: at - 5 <= k <= at ==> raw[k] == raw[at]
  }

  /** Some complete frame, its last stuff bit included, ends at or before `at`. */
  ghost predicate FrameBefore(raw: seq<Binary>, at: nat) {
    exists un: seq<Binary>, tail: nat :: ReadsAs(raw, un, tail) && |raw| - tail <= at
  }

  /** The first six equal bits end at `at`, and no frame has ended before. */
  ghost predicate Broken(raw: seq<Binary>, at: nat) {
    && SixEqual(raw, at) && !FrameBefore(raw, at)
    && forall k: nat :: k < at ==> !SixEqual(raw, k)
  }

  /** The bits up to `i` end in a run of exactly `run` bits equal to `last`. */
  predicate Running(raw: seq<Binary>, i: nat, run: nat, last: int) {
    && run <= i <= |raw| && run <= 5 && (run == 0 <==> i == 0)
    && (i == 0 ==> last == NO_BIT)
    && (forall k :: i - run <= k < i ==> raw[k] == last)
    && (i > run ==> raw[i - run - 1] != last)
  }

  lemma RunningNext(raw: seq<Binary>, i: nat, run: nat, last: int)
    requires Running(raw, i, run, last) && i < |raw| && run < 5
    ensures Running(raw, i + 1, RunAfter(run, last, raw[i]), raw[i]) && !SixEqual(raw, i)
  {
    assert SixEqual(raw, i) ==> raw[i - run - 1] == raw[i];
  }

  lemma RunningStuff(raw: seq<Binary>, i: nat, last: int)
    requires Running(raw, i, 5, last) && i < |raw|
    ensures SixEqual(raw, i) <==> raw[i] == last
    ensures raw[i] != last ==> Running(raw, i + 1, 1, raw[i])
  {
    assert raw[i - 5] == last;
  }

  /** A scan that fails has found the first six equal bits from `i` on, and one that does
      not has passed none. */
  lemma {:induction false} ScanRuns(raw: seq<Binary>, un: seq<Binary>, run: nat, last: int, i: nat)
    requires Running(raw, i, run, last)
    ensures var r := Scan(raw, un, run, last, i);
            && (r.StuffError? ==> i <= r.at < |raw| && SixEqual(raw, r.at))
            && (forall k: nat :: i <= k < (if r.StuffError? then r.at else r.next) ==> !SixEqual(raw, k))
    decreases |raw| - i
  {
    hide Complete, Running, SixEqual;
    RunLimit(raw, i, run, last);
    if i < |raw| {
      if run == 5 {
        RunningStuff(raw, i, last);
        if raw[i] != last {
          ScanRuns(raw, un, 1, raw[i], i + 1);
        }
      } else if !Complete(un) {
        RunningNext(raw, i, run, last);
        ScanRuns(raw, un + [raw[i]], RunAfter(run, last, raw[i]), raw[i], i + 1);
      }
    }
  }

  lemma RunLimit(raw: seq<Binary>, i: nat, run: nat, last: int)
    requires Running(raw, i, run, last)
    ensures run <= 5 && i <= |raw|
  {
  }

  /** Whatever reads as a frame and a tail scans to that frame. */
  lemma ReadsScans(raw: seq<Binary>, un: seq<Binary>, tail: nat)
    requires ReadsAs(raw, un, tail)
    ensures var r := ScanAll(raw);
            r.Scanned? && r.un == un && r.next == |raw| - tail == |Stuff(un)| && r.run != 5 && Complete(un)
  {
    hide Stuff, ScanAll;
    var end := |raw| - tail;
    assert raw == Stuff(un) + raw[end..];
    ScanOfStuffed(un, raw, raw[end..]);
  }

  /** And a scan that ends with a complete frame has read it as such. */
  lemma ScansRead(raw: seq<Binary>)
    requires var r := ScanAll(raw); r.Scanned? && Complete(r.un) && !(r.run == 5 && r.next == |raw|)
    ensures var r := ScanAll(raw); ReadsAs(raw, r.un, |raw| - r.next)
  {
    ScanIsExactFrom(raw, [], 0, NO_BIT, 0);
    ScanIsExact(raw);
    ScanStopsAtNeed(raw, [], 0, NO_BIT, 0);
  }

  /** A stuff fault is found exactly where the first six equal raw bits end, unless the
      frame has ended before. */
  lemma BrokenExactly(raw: seq<Binary>, at: nat)
    ensures ScanAll(raw) == StuffError(at) <==> Broken(raw, at)
  {
    var r := ScanAll(raw);
    if r.StuffError? {
      ScanRuns(raw, [], 0, NO_BIT, 0);
      forall un: seq<Binary>, tail: nat ensures !ReadsAs(raw, un, tail) {
        if ReadsAs(raw, un, tail) {
          ReadsScans(raw, un, tail);
        }
      }
      assert Broken(raw, r.at);
      assert Broken(raw, at) ==> at == r.at;
    } else {
      NotBroken(raw, at);
    }
  }

  /** Without a fault, six equal bits come only after the frame. */
  lemma NotBroken(raw: seq<Binary>, at: nat)
    requires ScanAll(raw).Scanned?
    ensures !Broken(raw, at)
  {
    var r := ScanAll(raw);
    ScanRuns(raw, [], 0, NO_BIT, 0);
    if SixEqual(raw, at) {
      assert at >= r.next;
      ScanStops(raw, [], 0, NO_BIT, 0);
      ScansRead(raw);
      assert ReadsAs(raw, r.un, |raw| - r.next);
      assert FrameBefore(raw, at);
    }
  }

  /** A scan without a fault uses up the bits or stops at a complete frame. */
  lemma {:induction false} ScanStops(raw: seq<Binary>, un: seq<Binary>, run: nat, last: int, i: nat)
    requires i <= |raw|
    ensures var r := Scan(raw, un, run, last, i);
            r.Scanned? && r.next < |raw| ==> Complete(r.un) && r.run != 5
    decreases |raw| - i
  {
    hide Complete;
    if i < |raw| {
      if run == 5 {
        if raw[i] != last {
          ScanStops(raw, un, 1, raw[i], i + 1);
        }
      } else if !Complete(un) {
        ScanStops(raw, un + [raw[i]], RunAfter(run, last, raw[i]), raw[i], i + 1);
      }
    }
  }

  // ------------------------------------------------------------ one decode

  /** The CRC the frame carries is not that of its body. */
  predicate WrongCrc(un: seq<Binary>)
    requires |un| >= 15
  {
    Crc(un[..|un| - 15]) != FromMsb(un[|un| - 15..])
  }

  lemma WrongCrcIs(un: seq<Binary>)
    requires |un| >= HEADER && |un| == Need(un)
    ensures WrongCrc(un) <==> !CrcOk(un)
  {
    assert un[|un| - 15..|un|] == un[|un| - 15..];
  }

  /** The bits after the frame. */
  function TailOf(raw: seq<Binary>, tail: nat): (bits: seq<Binary>)
    requires tail <= |raw|
    ensures |bits| == tail
  {
    raw[|raw| - tail..]
  }

  predicate SomeDominant(bits: seq<Binary>) {
    exists k :: 2 <= k < |bits| && bits[k] == 0
  }

  /** At the first bit after a frame, the delimiter, the receiver judges the CRC and decides
      on its acknowledgement; at the tenth it judges the rest and records the frame; at any
      other it does nothing. */
  lemma DecodeReads(n: Node, setup: Setup, un: seq<Binary>, tail: nat)
    requires n.t0.Some? && ReadsAs(n.raw, un, tail)
    ensures var d, bits := Decoded(n, setup), TailOf(n.raw, tail);
            && (tail == 1 ==>
                  d == Node(n.t, n.idle, n.t0, n.raw,
                            if setup.ack && !WrongCrc(un) then Some(n.t0.value + |n.raw| * 1000) else n.ackFrom,
                            n.errors + (if bits[0] == 0 then [DelimiterDominant] else [])
                              + (if WrongCrc(un) then [CrcMismatch] else []),
                            n.frames, n.done))
            && (tail == 10 ==>
                  d == Node(n.t, 0, None, n.raw, n.ackFrom,
                            n.errors + (if setup.ack && bits[1] == 1 then [AckNotDominant] else [])
                              + (if SomeDominant(bits) then [EndNotRecessive(bits)] else []),
                            n.frames + [Delivered(un)], true))
            && (tail != 1 && tail != 10 ==> d == n)
  {
    hide ScanAll, Stuff, CrcOk, WrongCrc, Complete, ReadsAs, SomeDominant, TailFaults, AckDecision, Delivered;
    DecodedReads(n, setup, un, tail);
    WrongCrcIs(un);
    if tail == 1 {
      Acknowledging(n, setup, un, TailOf(n.raw, tail)[0]);
    } else if tail == 10 {
      EndJudged(setup, TailOf(n.raw, tail));
    }
  }

  lemma DecodedReads(n: Node, setup: Setup, un: seq<Binary>, tail: nat)
    requires n.t0.Some? && ReadsAs(n.raw, un, tail)
    ensures |un| >= HEADER && |un| == Need(un) && Complete(un) && tail <= |n.raw|
    ensures HEADER + 8 * DataCount(un) <= |un| && Delivered(un) == Frame(Identifier(un), Data(un, DataCount(un)))
    ensures Decoded(n, setup) == AfterFrame(n, setup, un, TailOf(n.raw, tail))
  {
    ReadsScans(n.raw, un, tail);
    hide ScanAll, Stuff, AfterFrame, Identifier, Data, DataCount;
  }

  lemma Acknowledging(n: Node, setup: Setup, un: seq<Binary>, delimiter: Binary)
    requires n.t0.Some? && Complete(un) && |un| >= 15 && (WrongCrc(un) <==> !CrcOk(un))
    ensures AckDecision(n, setup, un, delimiter) ==
            Node(n.t, n.idle, n.t0, n.raw,
                 if setup.ack && !WrongCrc(un) then Some(n.t0.value + |n.raw| * 1000) else n.ackFrom,
                 n.errors + (if delimiter == 0 then [DelimiterDominant] else [])
                   + (if WrongCrc(un) then [CrcMismatch] else []),
                 n.frames, n.done)
  {
    hide CrcOk, WrongCrc;
  }

  lemma EndJudged(setup: Setup, bits: seq<Binary>)
    requires |bits| == 10
    ensures TailFaults(setup, bits) ==
            (if setup.ack && bits[1] == 1 then [AckNotDominant] else [])
            + (if SomeDominant(bits) then [EndNotRecessive(bits)] else [])
  {
    assert SomeDominant(bits) <==> exists k :: 2 <= k < 10 && bits[k] != 1;
  }

  /** Six equal bits end the frame with a stuff fault. */
  lemma DecodeBroken(n: Node, setup: Setup, at: nat)
    requires n.t0.Some? && Broken(n.raw, at)
    ensures Decoded(n, setup) ==
            Node(n.t, 0, None, n.raw, n.ackFrom, n.errors + [StuffFault(at)], n.frames, true)
  {
    BrokenExactly(n.raw, at);
    hide Broken, ScanAll;
  }

  /** And without either nothing happens. */
  lemma DecodeWaits(n: Node, setup: Setup)
    requires n.t0.Some? && (forall at: nat :: !Broken(n.raw, at))
    requires forall un: seq<Binary>, tail: nat :: !ReadsAs(n.raw, un, tail)
    ensures Decoded(n, setup) == n
  {
    var r := ScanAll(n.raw);
    if r.StuffError? {
      BrokenExactly(n.raw, r.at);
      assert false;
    } else if Complete(r.un) && !(r.run == 5 && r.next == |n.raw|) {
      ScansRead(n.raw);
      assert false;
    }
  }

  /** What deserves a fault. */
  ghost predicate Deserved(raw: seq<Binary>, ack: bool, f: Fault) {
    match f
    case StuffFault(at) => Broken(raw, at)
    case DelimiterDominant => exists un: seq<Binary> :: ReadsAs(raw, un, 1) && TailOf(raw, 1)[0] == 0
    case CrcMismatch => exists un: seq<Binary> :: ReadsAs(raw, un, 1) && WrongCrc(un)
    case AckNotDominant => exists un: seq<Binary> :: ReadsAs(raw, un, 10) && ack && TailOf(raw, 10)[1] == 1
    case EndNotRecessive(bits) =>
      exists un: seq<Binary> :: ReadsAs(raw, un, 10) && bits == TailOf(raw, 10) && SomeDominant(bits)
  }

  /** A raw sequence reads as one frame and one tail at most, and not if it is broken. */
  lemma ReadsOnce(raw: seq<Binary>, un: seq<Binary>, tail: nat, vn: seq<Binary>, end: nat)
    requires ReadsAs(raw, un, tail) && ReadsAs(raw, vn, end)
    ensures un == vn && tail == end
  {
    ReadsScans(raw, un, tail);
    ReadsScans(raw, vn, end);
  }

  lemma BrokenReadsNot(raw: seq<Binary>, at: nat, un: seq<Binary>, tail: nat)
    requires Broken(raw, at)
    ensures !ReadsAs(raw, un, tail)
  {
    BrokenExactly(raw, at);
    if ReadsAs(raw, un, tail) {
      ReadsScans(raw, un, tail);
    }
  }

  /** On any bus, at every sample: the faults recorded are exactly those deserved, each once,
      and those before stay. */
  lemma FaultsExactly(n: Node, setup: Setup, f: Fault)
    requires n.t0.Some?
    ensures var d := Decoded(n, setup);
            && n.errors <= d.errors
            && (Deserved(n.raw, setup.ack, f) <==> f in d.errors[|n.errors|..])
            && multiset(d.errors[|n.errors|..])[f] <= 1
  {
    hide *;
    var raw, d := n.raw, Decoded(n, setup);
    if at: nat :| Broken(raw, at) {
      DecodeBroken(n, setup, at);
      DeservedBroken(raw, setup.ack, at, f);
      Judged(n.errors, d.errors, true, StuffFault(at), false, CrcMismatch, f, Deserved(raw, setup.ack, f));
    } else if un: seq<Binary>, tail: nat :| ReadsAs(raw, un, tail) {
      ReadsLong(raw, un, tail);
      DecodeReads(n, setup, un, tail);
      DeservedRead(raw, setup.ack, un, tail, f);
      var bits := TailOf(raw, tail);
      if tail == 1 {
        Judged(n.errors, d.errors, bits[0] == 0, DelimiterDominant, WrongCrc(un), CrcMismatch, f,
               Deserved(raw, setup.ack, f));
      } else if tail == 10 {
        Judged(n.errors, d.errors, setup.ack && bits[1] == 1, AckNotDominant, SomeDominant(bits),
               EndNotRecessive(bits), f, Deserved(raw, setup.ack, f));
      } else {
        Judged(n.errors, d.errors, false, AckNotDominant, false, CrcMismatch, f, Deserved(raw, setup.ack, f));
      }
    } else {
      DecodeWaits(n, setup);
      DeservedNone(raw, setup.ack, f);
      Judged(n.errors, d.errors, false, AckNotDominant, false, CrcMismatch, f, Deserved(raw, setup.ack, f));
    }
  }

  /** Two faults at most, appended in order. */
  lemma Judged(before: seq<Fault>, after: seq<Fault>, p: bool, x: Fault, q: bool, y: Fault, f: Fault, deserved: bool)
    requires x != y && after == before + (if p then [x] else []) + (if q then [y] else [])
    requires deserved <==> (f == x && p) || (f == y && q)
    ensures before <= after && (deserved <==> f in after[|before|..]) && multiset(after[|before|..])[f] <= 1
  {
    assert after[|before|..] == (if p then [x] else []) + (if q then [y] else []);
  }

  lemma ReadsLong(raw: seq<Binary>, un: seq<Binary>, tail: nat)
    requires ReadsAs(raw, un, tail)
    ensures |un| >= 15 && tail <= |raw|
  {
  }

  lemma DeservedBroken(raw: seq<Binary>, ack: bool, at: nat, f: Fault)
    requires Broken(raw, at)
    ensures Deserved(raw, ack, f) <==> f == StuffFault(at)
  {
    hide ReadsAs, Broken, WrongCrc, SomeDominant;
    forall un: seq<Binary>, tail: nat ensures !ReadsAs(raw, un, tail) {
      BrokenReadsNot(raw, at, un, tail);
    }
    if f.StuffFault? && Broken(raw, f.at) {
      BrokenExactly(raw, at);
      BrokenExactly(raw, f.at);
    }
  }

  lemma DeservedRead(raw: seq<Binary>, ack: bool, un: seq<Binary>, tail: nat, f: Fault)
    requires ReadsAs(raw, un, tail) && |un| >= 15 && tail <= |raw|
    ensures var bits := TailOf(raw, tail);
            Deserved(raw, ack, f) <==>
              || (tail == 1 && ((f == DelimiterDominant && bits[0] == 0) || (f == CrcMismatch && WrongCrc(un))))
              || (tail == 10 && ((f == AckNotDominant && ack && bits[1] == 1)
                                 || (f == EndNotRecessive(bits) && SomeDominant(bits))))
  {
    hide Broken, WrongCrc, SomeDominant;
    forall vn: seq<Binary>, end: nat | ReadsAs(raw, vn, end) ensures vn == un && end == tail {
      ReadsOnce(raw, vn, end, un, tail);
    }
    hide ReadsAs;
    if f.StuffFault? && Broken(raw, f.at) {
      BrokenReadsNot(raw, f.at, un, tail);
    }
  }

  lemma DeservedNone(raw: seq<Binary>, ack: bool, f: Fault)
    requires (forall at: nat :: !Broken(raw, at)) && forall un: seq<Binary>, tail: nat :: !ReadsAs(raw, un, tail)
    ensures !Deserved(raw, ack, f)
  {
    hide ReadsAs, Broken;
  }

  // ------------------------------------------------------------ a whole reception

  /** The receiver after sampling these bits, as long as it is in a frame. */
  function Fed(n: Node, setup: Setup, bits: seq<Binary>): Node
    decreases |bits|
  {
    if bits == [] || n.t0.None? then n else Fed(Decoded(Sampled(n, bits[0]), setup), setup, bits[1..])
  }

  function DelimiterFaults(un: seq<Binary>, delimiter: Binary): seq<Fault>
    requires |un| >= 15
  {
    (if delimiter == 0 then [DelimiterDominant] else []) + (if WrongCrc(un) then [CrcMismatch] else [])
  }

  function EndFaults(ack: bool, tail: seq<Binary>): seq<Fault>
    requires |tail| == 10
  {
    (if ack && tail[1] == 1 then [AckNotDominant] else [])
      + (if SomeDominant(tail) then [EndNotRecessive(tail)] else [])
  }

  /** In the middle of a stuffed frame and its tail, after `j` bits. */
  function Midframe(n: Node, setup: Setup, un: seq<Binary>, tail: seq<Binary>, j: nat): Node
    requires n.t0.Some? && |un| >= 15 && |tail| == 10 && j <= |Stuff(un)| + 10
  {
    var whole := |Stuff(un)|;
    Node(n.t, n.idle, n.t0, (Stuff(un) + tail)[..j],
         if j > whole && setup.ack && !WrongCrc(un) then Some(n.t0.value + (whole + 1) * 1000) else n.ackFrom,
         n.errors + (if j > whole then DelimiterFaults(un, tail[0]) else []), n.frames, n.done)
  }

  lemma PartWaits(n: Node, setup: Setup, un: seq<Binary>, tail: seq<Binary>)
    requires n.t0.Some? && |un| >= HEADER && |un| == Need(un)
    requires n.raw <= Stuff(un) + tail && |n.raw| < |Stuff(un)|
    ensures Decoded(n, setup) == n
  {
    hide Stuff, Need, ScanAll, Complete;
    ScanOfStuffed(un, n.raw, tail);
  }

  lemma TailBits(un: seq<Binary>, tail: seq<Binary>, j: nat)
    requires |un| >= HEADER && |un| == Need(un) && |tail| == 10 && |Stuff(un)| <= j <= |Stuff(un)| + 10
    ensures var raw := (Stuff(un) + tail)[..j];
            ReadsAs(raw, un, j - |Stuff(un)|) && TailOf(raw, j - |Stuff(un)|) == tail[..j - |Stuff(un)|]
  {
    hide Stuff, Need;
    var raw := (Stuff(un) + tail)[..j];
    assert raw[..|Stuff(un)|] == Stuff(un);
  }

  lemma NextRaw(bits: seq<Binary>, j: nat)
    requires j < |bits|
    ensures bits[..j] + [bits[j]] == bits[..j + 1]
  {
  }

  lemma MidframeStep(n: Node, setup: Setup, un: seq<Binary>, tail: seq<Binary>, j: nat)
    requires n.t0.Some? && |un| >= HEADER && |un| == Need(un) && |tail| == 10 && j < |Stuff(un)| + 9
    ensures Decoded(Sampled(Midframe(n, setup, un, tail, j), (Stuff(un) + tail)[j]), setup) ==
            Midframe(n, setup, un, tail, j + 1)
  {
    hide *;
    LongEnough(un);
    NextRaw(Stuff(un) + tail, j);
    var m := Sampled(Midframe(n, setup, un, tail, j), (Stuff(un) + tail)[j]);
    MidframeSampled(n, setup, un, tail, j, m);
    if j + 1 < |Stuff(un)| {
      PartWaits(m, setup, un, tail);
    } else {
      TailBits(un, tail, j + 1);
      DecodeReads(m, setup, un, j + 1 - |Stuff(un)|);
      if j == |Stuff(un)| {
        DelimiterJudged(n, setup, un, tail, m);
      }
    }
  }

  lemma LongEnough(un: seq<Binary>)
    requires |un| >= HEADER
    ensures |un| >= 15
  {
  }

  /** Away from the delimiter a sample only adds its bit. */
  lemma MidframeSampled(n: Node, setup: Setup, un: seq<Binary>, tail: seq<Binary>, j: nat, m: Node)
    requires n.t0.Some? && |un| >= 15 && |tail| == 10 && j < |Stuff(un)| + 9
    requires m == Sampled(Midframe(n, setup, un, tail, j), (Stuff(un) + tail)[j])
    requires (Stuff(un) + tail)[..j] + [(Stuff(un) + tail)[j]] == (Stuff(un) + tail)[..j + 1]
    ensures m.t0.Some? && m.raw == (Stuff(un) + tail)[..j + 1]
    ensures m.raw <= Stuff(un) + tail && |m.raw| == j + 1
    ensures j != |Stuff(un)| ==> m == Midframe(n, setup, un, tail, j + 1)
  {
    hide Stuff, WrongCrc, DelimiterFaults;
  }

  /** At the delimiter the CRC is judged. */
  lemma DelimiterJudged(n: Node, setup: Setup, un: seq<Binary>, tail: seq<Binary>, m: Node)
    requires n.t0.Some? && |un| >= 15 && |tail| == 10
    requires m == Sampled(Midframe(n, setup, un, tail, |Stuff(un)|), (Stuff(un) + tail)[|Stuff(un)|])
    requires m.raw == (Stuff(un) + tail)[..|Stuff(un)| + 1] && m.t0.Some?
    ensures Midframe(n, setup, un, tail, |Stuff(un)| + 1) ==
            Node(m.t, m.idle, m.t0, m.raw,
                 if setup.ack && !WrongCrc(un) then Some(m.t0.value + |m.raw| * 1000) else m.ackFrom,
                 m.errors + (if tail[..1][0] == 0 then [DelimiterDominant] else [])
                   + (if WrongCrc(un) then [CrcMismatch] else []),
                 m.frames, m.done)
  {
    hide Stuff, WrongCrc;
    assert n.errors + [] == n.errors;
  }

  lemma LastBitFed(n: Node, setup: Setup, un: seq<Binary>, tail: seq<Binary>)
    requires n.t0.Some? && |un| >= HEADER && |un| == Need(un) && |tail| == 10
    ensures var j := |Stuff(un)| + 9;
            Decoded(Sampled(Midframe(n, setup, un, tail, j), (Stuff(un) + tail)[j]), setup) ==
            Node(n.t, 0, None, Stuff(un) + tail, Midframe(n, setup, un, tail, j).ackFrom,
                 n.errors + DelimiterFaults(un, tail[0]) + EndFaults(setup.ack, tail), n.frames + [Delivered(un)], true)
  {
    hide Stuff, Need, Decoded, WrongCrc, ReadsAs, SomeDominant, Delivered;
    var bits, j := Stuff(un) + tail, |Stuff(un)| + 9;
    NextRaw(bits, j);
    assert bits[..j + 1] == bits && tail[..10] == tail;
    TailBits(un, tail, j + 1);
    DecodeReads(Sampled(Midframe(n, setup, un, tail, j), bits[j]), setup, un, 10);
  }

  lemma {:induction false} FedFrom(n: Node, setup: Setup, un: seq<Binary>, tail: seq<Binary>, j: nat)
    requires n.t0.Some? && |un| >= HEADER && |un| == Need(un) && |tail| == 10 && j <= |Stuff(un)| + 9
    ensures Fed(Midframe(n, setup, un, tail, j), setup, (Stuff(un) + tail)[j..]) ==
            Node(n.t, 0, None, Stuff(un) + tail, Midframe(n, setup, un, tail, |Stuff(un)| + 9).ackFrom,
                 n.errors + DelimiterFaults(un, tail[0]) + EndFaults(setup.ack, tail), n.frames + [Delivered(un)], true)
    decreases |Stuff(un)| + 9 - j
  {
    var bits := Stuff(un) + tail;
    hide Stuff, Need, Decoded, Sampled, DelimiterFaults, EndFaults, Delivered;
    assert bits[j..][0] == bits[j] && bits[j..][1..] == bits[j + 1..];
    if j < |Stuff(un)| + 9 {
      MidframeStep(n, setup, un, tail, j);
      FedFrom(n, setup, un, tail, j + 1);
    } else {
      LastBitFed(n, setup, un, tail);
      assert bits[j + 1..] == [];
    }
  }

  /** Every frame of any fields and any CRC, after any ten bits: what it leaves is the
      record, exactly the faults it and its tail deserve, and the acknowledgement if its CRC
      is right. */
  lemma ReceptionExactly(n: Node, setup: Setup, un: seq<Binary>, tail: seq<Binary>)
    requires n.t0.Some? && n.raw == [] && |un| >= HEADER && |un| == Need(un) && |tail| == 10
    ensures Fed(n, setup, Stuff(un) + tail) ==
            Node(n.t, 0, None, Stuff(un) + tail,
                 if setup.ack && !WrongCrc(un) then Some(n.t0.value + (|Stuff(un)| + 1) * 1000) else n.ackFrom,
                 n.errors + DelimiterFaults(un, tail[0]) + EndFaults(setup.ack, tail), n.frames + [Delivered(un)], true)
  {
    hide Stuff, Need, Fed, DelimiterFaults, EndFaults, Delivered, WrongCrc;
    FedFrom(n, setup, un, tail, 0);
    assert (Stuff(un) + tail)[0..] == Stuff(un) + tail && (Stuff(un) + tail)[..0] == [];
    assert n.errors + [] == n.errors;
  }

  // ------------------------------------------------------------ corruption

  /** If the carried CRC is right the remainder of the whole frame is zero. */
  lemma RightCrcDivides(un: seq<Binary>)
    requires |un| >= 15
    ensures !WrongCrc(un) ==> Crc(un) == 0
  {
    var body, sum := un[..|un| - 15], un[|un| - 15..];
    if !WrongCrc(un) {
      CrcRemainder(body);
      MsbOfFrom(sum);
      assert un == body + sum;
    }
  }

  /** Reading a number from its bits and writing it again gives the bits. */
  lemma {:induction false} MsbOfFrom(bits: seq<Binary>)
    ensures MsbFirst(FromMsb(bits), |bits|) == bits
    decreases |bits|
  {
    if bits != [] {
      var n := |bits| - 1;
      var x := FromMsb(bits[..n]);
      MsbOfFrom(bits[..n]);
      assert FromMsb(bits) / 2 == x && FromMsb(bits) % 2 == bits[n];
      forall k | 0 <= k < n + 1 ensures MsbFirst(FromMsb(bits), n + 1)[k] == bits[k] {
        if k < n {
          assert Bit(FromMsb(bits), n - k) == Bit(x, n - 1 - k) == MsbFirst(x, n)[k] == bits[..n][k];
        } else {
          assert Bit(FromMsb(bits), 0) == bits[n];
        }
      }
    }
  }

  /** The sent frame with a burst of at most fifteen wrong bits, of the same length: it is
      never acknowledged and never recorded without its CRC fault. */
  lemma CorruptionSeen(n: Node, setup: Setup, id: nat, data: seq<Byte>, un: seq<Binary>, from: nat, to: nat,
                       tail: seq<Binary>)
    requires n.t0.Some? && n.raw == [] && |tail| == 10
    requires un != FrameBits(id, data) && |un| == |FrameBits(id, data)| && |un| == Need(un)
    requires from <= to <= |un| && to - from <= 15
    requires forall i :: 0 <= i < |un| && !(from <= i < to) ==> un[i] == FrameBits(id, data)[i]
    ensures var d := Fed(n, setup, Stuff(un) + tail);
            d.ackFrom == n.ackFrom && n.errors <= d.errors && CrcMismatch in d.errors[|n.errors|..]
  {
    var f, body := FrameBits(id, data), Body(id, data);
    CrcRemainder(body);
    assert Crc(f) == 0;
    BurstDetected(un, f, from, to);
    RightCrcDivides(un);
    hide *;
    ReceptionExactly(n, setup, un, tail);
    MismatchAmong(n.errors, un, tail, setup.ack);
  }

  lemma MismatchAmong(errors: seq<Fault>, un: seq<Binary>, tail: seq<Binary>, ack: bool)
    requires |un| >= 15 && WrongCrc(un) && |tail| == 10
    ensures var all := errors + DelimiterFaults(un, tail[0]) + EndFaults(ack, tail);
            errors <= all && CrcMismatch in all[|errors|..]
  {
    var mine := DelimiterFaults(un, tail[0]);
    var all := errors + mine + EndFaults(ack, tail);
    hide EndFaults, WrongCrc;
    var k := |mine| - 1;
    assert mine[k] == CrcMismatch && all[|errors|..][k] == mine[k];
  }

  // ------------------------------------------------------------ synchronising

  /** A dominant cycle starts a frame exactly if eleven bit times of recessive cycles came
      before it. */
  lemma SyncExactly(n: Node, setup: Setup, cycles: nat)
    requires n.t0.None? && n.idle == 0
    ensures var d := Cycle(Hold(n, setup, 1, cycles), setup, 0);
            && d.t0 == (if cycles >= 11000 then Some(n.t + cycles + 1) else None)
            && d.idle == 0 && d.errors == n.errors && d.frames == n.frames
            && (cycles >= 11000 ==> d.raw == [] && d.ackFrom == None)
  {
    Idle(n, setup, cycles);
    hide Hold;
  }
}
