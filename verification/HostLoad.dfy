/** The host's loader against the chip, for any host latency. */
module HostLoad {
  import opened Bits
  import opened BootChip

  datatype Outcome =
    | Loaded
    | BadLength(length: nat)
    | Timeout(level: int, byte: int)
    | BadEcho(byte: int, got: nat, expected: nat)

  /** The writes that put `bytes` at addresses 0, 1, 2, ... */
  function Writes(bytes: seq<Byte>): (w: seq<Write>)
    ensures |w| == |bytes|
  {
    seq(|bytes|, i requires 0 <= i < |bytes| => Write(i, bytes[i]))
  }

  /** The byte counter after `k` bytes: it saturates. */
  function Counter(k: nat): nat {
    if k < SRAM then k else SRAM - 1
  }

  /** The boot registers after `bytes` were loaded over `mem`. */
  function Booted(mem: seq<Byte>, bytes: seq<Byte>): Boot
    requires |mem| == SRAM && |bytes| <= SRAM
  {
    var k := |bytes|;
    Boot(Counter(k), k == SRAM, false, Counter(k) % 0x100, bytes + mem[k..], Writes(bytes))
  }

  lemma NextByte(mem: seq<Byte>, bytes: seq<Byte>, b: Byte)
    requires |mem| == SRAM && |bytes| < SRAM
    ensures BootIdle(Booted(mem, bytes + [b]), Counted(Stored(Booted(mem, bytes), b)))
  {
    var k := |bytes|;
    assert (bytes + mem[k..])[k := b] == (bytes + [b]) + mem[k + 1..];
    assert Writes(bytes + [b]) == Writes(bytes) + [Write(k, b)];
  }

  /** The chip's echo is the byte count's low byte up to the 1023rd byte, and 255
      instead of 0 at the 1024th. */
  lemma EchoMatches(k: nat)
    requires k <= SRAM
    ensures Counter(k) % 0x100 == k % 0x100 <==> k < SRAM
    ensures k == SRAM ==> Counter(k) % 0x100 == 255 && k % 0x100 == 0
  {
  }

  /** A wait for `level` on this chip may be given up when `n` clocks have passed: that is
      past the limit, and at most `slack` clocks ago HOST_STATUS had the other level. */
  ghost predicate GivenUp(c: Chip, pins: Pins, level: Level, limit: nat, slack: nat, n: nat)
    requires Valid(c)
  {
    n > limit && exists m: nat :: m <= n <= m + slack && Clocks(c, pins, m).status != level
  }

  /** The chip, its input pins, and a host that may take any time between operations. */
  class Rig {
    /** Clock cycles a wait lasts before the host gives up. */
    const limit: nat
    /** The most clock cycles between a reading of HOST_STATUS and the host's look at its
        clock right after it. */
    const slack: nat
    var chip: Chip
    var pins: Pins

    constructor (limit: nat, slack: nat, chip: Chip, pins: Pins)
      requires Valid(chip)
      ensures Ready() && this.limit == limit && this.slack == slack && this.chip == chip && this.pins == pins
    {
      this.limit, this.slack, this.chip, this.pins := limit, slack, chip, pins;
    }

    ghost predicate Ready()
      reads this
    {
      Valid(chip)
    }

    /** Any number of clocks pass. */
    method Latency(atLeast: nat) returns (ghost n: nat)
      requires Ready()
      modifies this
      ensures Ready() && pins == old(pins) && n >= atLeast && chip == Clocks(old(chip), pins, n)
    {
      var d: nat :| d >= atLeast;
      n := d;
      Run(d);
    }

    method Run(d: nat)
      requires Ready()
      modifies this
      ensures Ready() && pins == old(pins) && chip == Clocks(old(chip), pins, d)
    {
      for i := 0 to d
        invariant Ready() && pins == old(pins) && chip == Clocks(old(chip), pins, i)
      {
        ClocksAdd(old(chip), pins, i, 1);
        assert Clocks(chip, pins, 1) == Clock(chip, pins);
        chip := Clock(chip, pins);
      }
    }

    method Reset() returns (ghost n: nat)
      requires Ready()
      modifies this
      ensures Ready() && pins == old(pins) && chip == Clocks(ResetChip(old(chip).boot.mem), pins, n)
    {
      chip := ResetChip(chip.boot.mem);
      n := Latency(0);
    }

    method SetUi(b: Byte) returns (ghost n: nat)
      requires Ready()
      modifies this
      ensures Ready() && pins == Pins(b, old(pins).go, old(pins).start) && chip == Clocks(old(chip), pins, n)
    {
      pins := Pins(b, pins.go, pins.start);
      n := Latency(0);
    }

    method SetGo(level: Level)
      requires Ready()
      modifies this
      ensures Ready() && pins == Pins(old(pins).ui, level, old(pins).start) && chip == old(chip)
    {
      pins := Pins(pins.ui, level, pins.start);
    }

    method SetStart(level: Level)
      requires Ready()
      modifies this
      ensures Ready() && pins == Pins(old(pins).ui, old(pins).go, level) && chip == old(chip)
    {
      pins := Pins(pins.ui, pins.go, level);
    }

    /** Reads HOST_STATUS until it has the level; after each reading that has not, looks at
        the clock, at most `slack` later, and gives up past the limit. Any time passes
        before each reading. `n` is when the wait ends. */
    method WaitStatus(level: Level) returns (ok: bool, ghost n: nat)
      requires Ready()
      modifies this
      ensures Ready() && pins == old(pins) && chip == Clocks(old(chip), pins, n)
      ensures ok ==> chip.status == level
      ensures !ok ==> GivenUp(old(chip), pins, level, limit, slack, n)
    {
      var waited: nat :| true;
      Run(waited);
      n := waited;
      while chip.status != level
        invariant Ready() && pins == old(pins) && chip == Clocks(old(chip), pins, n) && n == waited
        decreases if waited <= limit then limit + 1 - waited else 0
      {
        var gap: nat :| gap <= slack;
        ClocksAdd(old(chip), pins, waited, gap);
        Run(gap);
        waited, n := waited + gap, waited + gap;
        if waited > limit {
          return false, n;
        }
        var pause: nat :| pause >= 1;
        ClocksAdd(old(chip), pins, waited, pause);
        Run(pause);
        waited, n := waited + pause, waited + pause;
      }
      ok := true;
    }

    /** Hand over byte `k`, counted from 1, and check the echo. */
    method LoadByte(ghost mem: seq<Byte>, image: seq<Byte>, k: nat) returns (r: Outcome)
      requires Settled(chip) && pins.go == 0 && pins.start == 0
      requires |mem| == SRAM && 1 <= k <= |image| <= SRAM && chip.boot == Booted(mem, image[..k - 1])
      modifies this
      ensures Ready() && pins.start == 0
      ensures r.Timeout? ==> slack + 3 > limit
      ensures k < SRAM && !r.Timeout? ==>
                r == Loaded && Settled(chip) && pins.go == 0 && chip.boot == Booted(mem, image[..k])
      ensures k == SRAM && !r.Timeout? ==>
                r == BadEcho(SRAM, 255, 0) && chip.loading && BootIdle(Booted(mem, image[..k]), chip.boot)
    {
      var b := image[k - 1];
      ghost var n := SetUi(b);
      SettledStays(old(chip), pins, n);
      SetGo(1);
      var ok;
      ghost var c := chip;
      RiseGivenUp(c, pins, limit, slack);
      ok, n := WaitStatus(1);
      RisePulse(c, pins, n);
      NextByte(mem, image[..k - 1], b);
      assert image[..k - 1] + [b] == image[..k];
      if !ok {
        return Timeout(1, k);
      }
      c := chip;
      n := Latency(0);
      AckedStays(c, pins, n);
      var echo := chip.boot.echo;
      EchoMatches(k);
      if echo != k % 0x100 {
        return BadEcho(k, echo, k % 0x100);
      }
      SetGo(0);
      c := chip;
      FallGivenUp(c, pins, limit, slack);
      ok, n := WaitStatus(0);
      FallPulse(c, pins, n);
      if !ok {
        return Timeout(0, k);
      }
      return Loaded;
    }

    /** Reset the chip, stream the image, pulse START for `hold` clocks or more, at any
        speed. Every image of 1 to 1023 bytes loads: each byte is written once, at its own
        index, the rest of the memory is untouched, and the chip has left LOAD. A full image
        of 1024 bytes is written as completely, and then refused by the last echo check. No
        wait runs out unless the host lets its whole limit but three clocks pass between a
        reading and its look at the clock; `RiseGivenUp` shows that then one can. */
    method Load(image: seq<Byte>, hold: nat) returns (r: Outcome)
      requires Ready() && hold >= 2
      modifies this
      ensures Ready()
      ensures r.Timeout? ==> 1 <= |image| <= SRAM && slack + 3 > limit
      ensures |image| == 0 || |image| > SRAM ==> r == BadLength(|image|) && chip == old(chip) && pins == old(pins)
      ensures 1 <= |image| < SRAM && !r.Timeout? ==>
                && r == Loaded && !chip.loading && chip.go == LOW && pins.start == 0 && pins.go == 0
                && chip.boot.mem == image + old(chip).boot.mem[|image|..] && chip.boot.log == Writes(image)
      ensures |image| == SRAM && !r.Timeout? ==>
                && r == BadEcho(SRAM, 255, 0) && chip.loading
                && chip.boot.mem == image && chip.boot.log == Writes(image)
    {
      if !(0 < |image| <= SRAM) {
        return BadLength(|image|);
      }
      ghost var mem := chip.boot.mem;
      SetStart(0);
      SetGo(0);
      ghost var n := Reset();
      SettledStays(ResetChip(mem), pins, n);
      assert Booted(mem, image[..0]) == ResetChip(mem).boot;
      var k := 1;
      while k <= |image|
        invariant 1 <= k <= |image| + 1 && k <= SRAM
        invariant Settled(chip) && pins.go == 0 && pins.start == 0 && chip.boot == Booted(mem, image[..k - 1])
      {
        r := LoadByte(mem, image, k);
        if r != Loaded {
          assert r.Timeout? || image[..SRAM] == image;
          return;
        }
        k := k + 1;
      }
      assert image[..k - 1] == image;
      ghost var c := chip;
      SetStart(1);
      n := Latency(hold);
      StartRise(c, pins, n);
      c := chip;
      SetStart(0);
      n := Latency(hold);
      StartFall(c, pins, n);
      return Loaded;
    }
  }

  /** A wait for the acknowledge can be given up exactly if the host is that slow. */
  lemma RiseGivenUp(c: Chip, pins: Pins, limit: nat, slack: nat)
    requires Settled(c) && pins.go == 1 && pins.start == 0
    ensures (exists n: nat :: GivenUp(c, pins, 1, limit, slack, n)) <==> slack + 3 > limit
  {
    forall m: nat ensures Clocks(c, pins, m).status != 1 <==> m < 4 {
      RisePulse(c, pins, m);
    }
    if slack + 3 > limit {
      assert Clocks(c, pins, 3).status != 1;
      assert GivenUp(c, pins, 1, limit, slack, slack + 3);
    }
  }

  lemma FallGivenUp(c: Chip, pins: Pins, limit: nat, slack: nat)
    requires Acked(c) && pins.go == 0 && pins.start == 0
    ensures (exists n: nat :: GivenUp(c, pins, 0, limit, slack, n)) <==> slack + 3 > limit
  {
    forall m: nat ensures Clocks(c, pins, m).status != 0 <==> m < 4 {
      FallPulse(c, pins, m);
    }
    if slack + 3 > limit {
      assert Clocks(c, pins, 3).status != 0;
      assert GivenUp(c, pins, 0, limit, slack, slack + 3);
    }
  }
}
