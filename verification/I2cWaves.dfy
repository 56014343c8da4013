/** The I2C bus waveform of the protocol-pin stimulus, against a monitor of the bus rules
    (NXP UM10204, sections 3.1.3 and 3.1.4). */
module I2cWaves {
  import opened Bits
  import opened LeafWords

  // ------------------------------------------------------------ the bus rules

  /** What a listener knows: the lines, whether a transfer is open, and the SCL rises
      since its START. */
  datatype Monitor = Silent | Seen(sda: Level, scl: Level, busy: bool, rises: nat) | Violated

  /** One more cycle. While SCL stays high SDA may change only as START, on a free bus, or
      as STOP, on a busy one after whole nine-clock bytes and the rise of the STOP itself. */
  function Observe(m: Monitor, sda: Level, scl: Level): Monitor {
    match m
    case Silent => Seen(sda, scl, false, 0)
    case Violated => Violated
    case Seen(d, c, busy, rises) =>
      if c == 1 && scl == 1 && d != sda then
        if sda == 0 then (if busy then Violated else Seen(0, 1, true, 0))
        else if busy && rises > 1 && rises % 9 == 1 then Seen(1, 1, false, 0) else Violated
      else Seen(sda, scl, busy, if c == 0 && scl == 1 then rises + 1 else rises)
  }

  function Watch(sda: seq<Level>, scl: seq<Level>): Monitor
    requires |sda| == |scl|
  {
    if sda == [] then Silent
    else Observe(Watch(sda[..|sda| - 1], scl[..|scl| - 1]), sda[|sda| - 1], scl[|scl| - 1])
  }

  /** The rules hold over the whole timeline. */
  predicate Conforms(sda: seq<Level>, scl: seq<Level>) {
    |sda| == |scl| && !Watch(sda, scl).Violated?
  }

  /** Seen once more, the same levels are no event. */
  lemma HoldIsQuiet(m: Monitor, d: Level, c: Level)
    ensures Observe(Observe(m, d, c), d, c) == Observe(m, d, c)
  {
  }

  function Repeat(level: Level, n: nat): (s: seq<Level>)
    ensures |s| == n
  {
    if n == 0 then [] else Repeat(level, n - 1) + [level]
  }

  lemma {:induction false} WatchHold(sda: seq<Level>, scl: seq<Level>, d: Level, c: Level, n: nat)
    requires |sda| == |scl| && n > 0
    ensures Watch(sda + Repeat(d, n), scl + Repeat(c, n)) == Observe(Watch(sda, scl), d, c)
    decreases n
  {
    var a, b := sda + Repeat(d, n), scl + Repeat(c, n);
    assert a[..|a| - 1] == sda + Repeat(d, n - 1) && b[..|b| - 1] == scl + Repeat(c, n - 1);
    if n == 1 {
      assert sda + Repeat(d, 0) == sda && scl + Repeat(c, 0) == scl;
    } else {
      WatchHold(sda, scl, d, c, n - 1);
      HoldIsQuiet(Watch(sda, scl), d, c);
    }
  }

  // ------------------------------------------------------------ the waveform builder

  /** An append-only timeline for one pin, capped at `n` cycles. */
  class Wave {
    const n: nat
    var levels: seq<Level>

    constructor (n: nat)
      ensures this.n == n && levels == []
    {
      this.n := n;
      levels := [];
    }

    method Hold(level: Level, cycles: int)
      requires |levels| <= n
      modifies this
      ensures levels == old(levels) + Repeat(level, Added(|old(levels)|, n, cycles))
      ensures |levels| <= n
    {
      var room := n - |levels|;
      if room > 0 {
        var wanted := if cycles > 1 then cycles else 1;
        levels := levels + Repeat(level, if wanted < room then wanted else room);
      } else {
        assert levels + Repeat(level, 0) == levels;
      }
    }
  }

  function Added(length: nat, n: nat, cycles: int): nat {
    if length >= n then 0
    else
      var wanted := if cycles > 1 then cycles else 1;
      if wanted < n - length then wanted else n - length
  }

  /** Both lines as far as they are, and what a listener has seen if they are not full. */
  ghost predicate Going(sda: Wave, scl: Wave, m: Monitor)
    reads sda, scl
  {
    && sda != scl && sda.n == scl.n && |sda.levels| == |scl.levels| <= sda.n
    && Conforms(sda.levels, scl.levels)
    && (|sda.levels| < sda.n ==> Watch(sda.levels, scl.levels) == m)
  }

  /** Hold both lines. */
  method Both(sda: Wave, scl: Wave, cycles: int, d: Level, c: Level, ghost m: Monitor)
    requires Going(sda, scl, m) && !Observe(m, d, c).Violated?
    modifies sda, scl
    ensures Going(sda, scl, Observe(m, d, c))
    ensures |sda.levels| == |old(sda.levels)| + Added(|old(sda.levels)|, sda.n, cycles)
  {
    ghost var k := Added(|sda.levels|, sda.n, cycles);
    if k > 0 {
      WatchHold(sda.levels, scl.levels, d, c, k);
    } else {
      assert sda.levels + Repeat(d, 0) == sda.levels && scl.levels + Repeat(c, 0) == scl.levels;
    }
    sda.Hold(d, cycles);
    scl.Hold(c, cycles);
  }

  /** One clocked bit: SCL low, SDA changed, SCL high. */
  method ClockBit(sda: Wave, scl: Wave, half: nat, old_: Level, ghost k: nat) returns (d: Level)
    requires Going(sda, scl, Seen(old_, 1, true, k))
    modifies sda, scl
    ensures Going(sda, scl, Seen(d, 1, true, k + 1))
    ensures |sda.levels| >= |old(sda.levels)|
  {
    var low := half;
    var stretch := RandInt(0, 1);
    if stretch == 0 {
      var extra := RandInt(20, 1500);
      low := low + extra;
    }
    var q := RandInt(1, if half / 2 > 1 then half / 2 else 1);
    Both(sda, scl, q, old_, 0, Seen(old_, 1, true, k));
    d := RandInt(0, 1);
    Both(sda, scl, if low - q > 1 then low - q else 1, d, 0, Seen(old_, 0, true, k));
    Both(sda, scl, half, d, 1, Seen(d, 0, true, k));
  }

  /** START, one to three bytes of nine clocks, STOP. */
  method Transfer(sda: Wave, scl: Wave, half: nat)
    requires Going(sda, scl, Seen(1, 1, false, 0))
    modifies sda, scl
    ensures Going(sda, scl, Seen(1, 1, false, 0))
    ensures |sda.levels| >= |old(sda.levels)|
  {
    Both(sda, scl, half, 0, 1, Seen(1, 1, false, 0));
    var d: Level := 0;
    var bytes := RandInt(1, 3);
    for k := 0 to 9 * bytes
      invariant Going(sda, scl, Seen(d, 1, true, k))
      invariant |sda.levels| >= |old(sda.levels)|
    {
      d := ClockBit(sda, scl, half, d, k);
    }
    Both(sda, scl, half, 0, 0, Seen(d, 1, true, 9 * bytes));
    Both(sda, scl, half, 0, 1, Seen(0, 0, true, 9 * bytes));
    Both(sda, scl, half, 1, 1, Seen(0, 1, true, 9 * bytes + 1));
  }

  /** For every length and every draw, both lines have that length and the bus rules hold
      throughout: SDA moves under a high SCL only as START or STOP, these alternate, and
      every complete transfer has 9j + 1 SCL rises. */
  method I2cBus(n: nat) returns (sda: seq<Level>, scl: seq<Level>)
    ensures |sda| == |scl| == n && Conforms(sda, scl)
  {
    var data := new Wave(n);
    var clock := new Wave(n);
    var half := RandInt(4, 250);
    ghost var m := Silent;
    while |clock.levels| < n
      invariant Going(data, clock, m) && data.n == n && (m == Silent || m == Seen(1, 1, false, 0))
      decreases n - |clock.levels|
    {
      var idle := RandInt(half, 3000);
      Both(data, clock, idle, 1, 1, m);
      m := Seen(1, 1, false, 0);
      Transfer(data, clock, half);
    }
    sda, scl := data.levels, clock.levels;
  }

  // ------------------------------------------------------------ what conforming means

  /** SDA moves from cycle `i` to the next while SCL stays high. */
  predicate Event(sda: seq<Level>, scl: seq<Level>, i: nat) {
    i + 1 < |sda| == |scl| && scl[i] == 1 && scl[i + 1] == 1 && sda[i] != sda[i + 1]
  }

  lemma {:induction false} PrefixConforms(sda: seq<Level>, scl: seq<Level>, n: nat)
    requires Conforms(sda, scl) && n <= |sda|
    ensures Conforms(sda[..n], scl[..n])
    decreases |sda|
  {
    if n < |sda| {
      var a, b := sda[..|sda| - 1], scl[..|scl| - 1];
      PrefixConforms(a, b, n);
      assert a[..n] == sda[..n] && b[..n] == scl[..n];
    } else {
      assert sda[..n] == sda && scl[..n] == scl;
    }
  }

  /** What the monitor remembers is the last cycle. */
  lemma {:induction false} WatchLast(sda: seq<Level>, scl: seq<Level>)
    requires Conforms(sda, scl) && sda != []
    ensures Watch(sda, scl).Seen? && Watch(sda, scl).sda == sda[|sda| - 1] && Watch(sda, scl).scl == scl[|scl| - 1]
    decreases |sda|
  {
    var n := |sda| - 1;
    if n > 0 {
      PrefixConforms(sda, scl, n);
      WatchLast(sda[..n], scl[..n]);
    }
  }

  /** The rises of SCL between two cycles. */
  function Rises(scl: seq<Level>, i: nat, j: nat): nat
    requires i <= j < |scl|
    decreases j
  {
    if i == j then 0 else Rises(scl, i, j - 1) + (if scl[j - 1] == 0 && scl[j] == 1 then 1 else 0)
  }

  /** With no event from cycle `i` to cycle `j`, the monitor only counts rises. */
  lemma {:induction false} Uneventful(sda: seq<Level>, scl: seq<Level>, i: nat, j: nat)
    requires Conforms(sda, scl) && i <= j < |sda| && forall k :: i <= k < j ==> !Event(sda, scl, k)
    ensures var m, w := Watch(sda[..i + 1], scl[..i + 1]), Watch(sda[..j + 1], scl[..j + 1]);
            m.Seen? && w.Seen? && w.busy == m.busy && w.rises == m.rises + Rises(scl, i, j)
    decreases j
  {
    hide Watch, Event;
    PrefixConforms(sda, scl, j + 1);
    WatchLast(sda[..j + 1], scl[..j + 1]);
    if i < j {
      Uneventful(sda, scl, i, j - 1);
      WatchNext(sda, scl, j);
    }
  }

  lemma WatchNext(sda: seq<Level>, scl: seq<Level>, j: nat)
    requires Conforms(sda, scl) && 0 < j < |sda| && !Event(sda, scl, j - 1)
    ensures var m, w := Watch(sda[..j], scl[..j]), Watch(sda[..j + 1], scl[..j + 1]);
            && m.Seen? && w.Seen? && w.busy == m.busy
            && w.rises == m.rises + (if scl[j - 1] == 0 && scl[j] == 1 then 1 else 0)
  {
    PrefixConforms(sda, scl, j + 1);
    PrefixConforms(sda, scl, j);
    WatchLast(sda[..j], scl[..j]);
    assert sda[..j + 1][..j] == sda[..j] && scl[..j + 1][..j] == scl[..j];
  }

  /** Two consecutive events of a conforming timeline alternate, and when the first is a
      START the second is its STOP after 9b + 1 rises of SCL. */
  lemma EventsAlternate(sda: seq<Level>, scl: seq<Level>, i: nat, j: nat)
    requires Conforms(sda, scl) && i < j && Event(sda, scl, i) && Event(sda, scl, j)
    requires forall k :: i < k < j ==> !Event(sda, scl, k)
    ensures sda[i + 1] != sda[j + 1]
    ensures sda[i + 1] == 0 ==> Rises(scl, i + 1, j) % 9 == 1 && Rises(scl, i + 1, j) > 1
  {
    AfterEvent(sda, scl, i);
    Uneventful(sda, scl, i + 1, j);
    AfterEvent(sda, scl, j);
  }

  lemma AfterEvent(sda: seq<Level>, scl: seq<Level>, i: nat)
    requires Conforms(sda, scl) && Event(sda, scl, i)
    ensures var before, after := Watch(sda[..i + 1], scl[..i + 1]), Watch(sda[..i + 2], scl[..i + 2]);
            && before.Seen? && after == Seen(sda[i + 1], 1, sda[i + 1] == 0, 0)
            && (if sda[i + 1] == 0 then !before.busy else before.busy && before.rises > 1 && before.rises % 9 == 1)
  {
    PrefixConforms(sda, scl, i + 1);
    PrefixConforms(sda, scl, i + 2);
    WatchLast(sda[..i + 1], scl[..i + 1]);
    assert sda[..i + 2][..i + 1] == sda[..i + 1] && scl[..i + 2][..i + 1] == scl[..i + 1];
  }
}
