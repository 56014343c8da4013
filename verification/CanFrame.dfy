/** Standard CAN data frames: building the bits, and scanning raw bits back. */
module CanFrame {
  import opened Bits
  import opened Crc15
  import opened CanStuffing

  const HEADER := 19

  /** A number from its bits, most significant first. */
  function FromMsb(bits: seq<Binary>): (x: nat)
    decreases |bits|
  {
    if bits == [] then 0 else 2 * FromMsb(bits[..|bits| - 1]) + bits[|bits| - 1]
  }

  /** Reading `n` bits back gives the number they were taken from. */
  lemma {:induction false} FromMsbFirst(x: nat, n: nat)
    requires x < Pow2(n)
    ensures FromMsb(MsbFirst(x, n)) == x
    decreases n
  {
    if n > 0 {
      FromMsbFirst(x / 2, n - 1);
      var m := MsbFirst(x, n);
      forall k | 0 <= k < n - 1 ensures m[k] == Bit(x / 2, n - 2 - k) {
        assert m[k] == Bit(x, n - 1 - k);
      }
      assert m[..n - 1] == MsbFirst(x / 2, n - 1);
      assert m[n - 1] == Bit(x, 0);
    }
  }

  function DataBits(data: seq<Byte>): (bits: seq<Binary>)
    ensures |bits| == 8 * |data|
    decreases |data|
  {
    if data == [] then [] else DataBits(data[..|data| - 1]) + MsbFirst(data[|data| - 1], 8)
  }

  /** Start of frame, identifier, three control bits, length and data. */
  function Body(id: nat, data: seq<Byte>): (bits: seq<Binary>)
    ensures |bits| == HEADER + 8 * |data|
  {
    [0] + MsbFirst(id, 11) + [0, 0, 0] + MsbFirst(|data|, 4) + DataBits(data)
  }

  function FrameBits(id: nat, data: seq<Byte>): (bits: seq<Binary>)
    ensures |bits| == HEADER + 8 * |data| + 15
  {
    Body(id, data) + MsbFirst(Crc(Body(id, data)), 15)
  }

  /** The source's order of appends. */
  method BuildFrame(id: nat, data: seq<Byte>) returns (bits: seq<Binary>)
    ensures bits == FrameBits(id, data)
  {
    bits := [0] + MsbFirst(id, 11) + [0, 0, 0];
    bits := bits + MsbFirst(|data|, 4);
    ghost var header := bits;
    for i := 0 to |data|
      invariant bits == header + DataBits(data[..i])
    {
      assert data[..i + 1][..i] == data[..i];
      assert header + (DataBits(data[..i]) + MsbFirst(data[i], 8)) == bits + MsbFirst(data[i], 8);
      bits := bits + MsbFirst(data[i], 8);
    }
    assert data[..|data|] == data;
    var c := ComputeCrc(bits);
    bits := bits + MsbFirst(c, 15);
  }

  // ------------------------------------------------------------ fields

  function Dlc(un: seq<Binary>): nat
    requires |un| >= HEADER
  {
    FromMsb(un[15..HEADER])
  }

  function DataCount(un: seq<Binary>): nat
    requires |un| >= HEADER
  {
    if Dlc(un) < 8 then Dlc(un) else 8
  }

  /** Length of the whole frame, known once the header is complete. */
  function Need(un: seq<Binary>): nat
    requires |un| >= HEADER
  {
    HEADER + 8 * DataCount(un) + 15
  }

  /** The length field: a first bit of 1 means eight bytes, whatever follows. */
  lemma LengthField(un: seq<Binary>)
    requires |un| >= HEADER
    ensures var a: nat, b: nat, c: nat := un[16], un[17], un[18];
            Need(un) == 34 + 8 * (if un[15] == 1 then 8 else 4 * a + 2 * b + c)
  {
    var d := un[15..HEADER];
    var a: nat, b: nat, c: nat, e: nat := un[15], un[16], un[17], un[18];
    assert d[..3][..2][..1][..0] == [];
    assert FromMsb(d[..3][..2][..1]) == a;
    assert FromMsb(d[..3][..2]) == 2 * a + b;
    assert FromMsb(d[..3]) == 2 * (2 * a + b) + c;
    assert FromMsb(d) == 8 * a + 4 * b + 2 * c + e;
  }

  predicate Complete(un: seq<Binary>) {
    |un| >= HEADER && |un| >= Need(un)
  }

  function Identifier(un: seq<Binary>): nat
    requires |un| >= HEADER
  {
    FromMsb(un[1..12])
  }

  function DataByte(un: seq<Binary>, k: nat): nat
    requires HEADER + 8 * k + 8 <= |un|
  {
    FromMsb(un[HEADER + 8 * k..HEADER + 8 * k + 8])
  }

  function Data(un: seq<Binary>, count: nat): (data: seq<nat>)
    requires HEADER + 8 * count <= |un|
    ensures |data| == count
  {
    if count == 0 then [] else Data(un, count - 1) + [DataByte(un, count - 1)]
  }

  predicate CrcOk(un: seq<Binary>)
    requires Complete(un)
  {
    var n := Need(un);
    Crc(un[..n - 15]) == FromMsb(un[n - 15..n])
  }

  lemma {:induction false} DataBitsAt(data: seq<Byte>, k: nat)
    requires k < |data|
    ensures DataBits(data)[8 * k..8 * k + 8] == MsbFirst(data[k], 8)
    decreases |data|
  {
    var n := |data| - 1;
    if k < n {
      DataBitsAt(data[..n], k);
      assert DataBits(data)[8 * k..8 * k + 8] == DataBits(data[..n])[8 * k..8 * k + 8];
    }
  }

  lemma FrameHeader(id: nat, data: seq<Byte>)
    requires id < 0x800 && |data| <= 8
    ensures var f := FrameBits(id, data);
            DataCount(f) == |data| && Identifier(f) == id && Need(f) == |f|
  {
    SmallPowers();
    hide Pow2, FromMsb, MsbFirst, Crc, FrameBits, DataBits;
    FromMsbFirst(id, 11);
    FromMsbFirst(|data|, 4);
    HeaderSlices(id, data);
  }

  lemma HeaderSlices(id: nat, data: seq<Byte>)
    ensures var f := FrameBits(id, data); f[1..12] == MsbFirst(id, 11) && f[15..HEADER] == MsbFirst(|data|, 4)
  {
    hide MsbFirst, DataBits, Crc;
    var f := FrameBits(id, data);
    var front := [0] + MsbFirst(id, 11) + [0, 0, 0] + MsbFirst(|data|, 4);
    assert f[..HEADER] == front;
    assert f[1..12] == front[1..12] && f[15..HEADER] == front[15..HEADER];
  }

  lemma SmallPowers()
    ensures Pow2(4) == 16 && Pow2(8) == 0x100 && Pow2(11) == 0x800
  {
    assert Pow2(4) == 16;
    assert Pow2(8) == 0x100;
  }

  lemma FrameSlices(id: nat, data: seq<Byte>)
    ensures var f := FrameBits(id, data); var n := HEADER + 8 * |data|;
            f[HEADER..n] == DataBits(data) && f[..n] == Body(id, data) && f[n..] == MsbFirst(Crc(Body(id, data)), 15)
  {
    hide MsbFirst, Crc, DataBits;
    var header := [0] + MsbFirst(id, 11) + [0, 0, 0] + MsbFirst(|data|, 4);
    var f, n := FrameBits(id, data), HEADER + 8 * |data|;
    assert Body(id, data) == header + DataBits(data) && |header| == HEADER;
    assert f[..n] == Body(id, data);
    assert f[n..] == MsbFirst(Crc(Body(id, data)), 15);
    assert f[HEADER..n] == f[..n][HEADER..];
  }

  lemma SliceOfSlice(s: seq<Binary>, a: nat, b: nat, lo: nat, hi: nat)
    requires a <= b <= |s| && lo <= hi <= b - a
    ensures s[a..b][lo..hi] == s[a + lo..a + hi]
  {
    assert forall k :: lo <= k < hi ==> s[a..b][k] == s[a + k];
  }

  lemma FrameByte(id: nat, data: seq<Byte>, k: nat)
    requires k < |data|
    ensures DataByte(FrameBits(id, data), k) == data[k]
  {
    hide Pow2, FromMsb, MsbFirst, FrameBits, DataBits, Body, Crc;
    var f := FrameBits(id, data);
    DataBitsAt(data, k);
    SmallPowers();
    FromMsbFirst(data[k], 8);
    FrameSlices(id, data);
    SliceOfSlice(f, HEADER, HEADER + 8 * |data|, 8 * k, 8 * k + 8);
  }

  lemma {:induction false} FrameData(id: nat, data: seq<Byte>, count: nat)
    requires count <= |data|
    ensures Data(FrameBits(id, data), count) == data[..count]
    decreases count
  {
    hide FrameBits, DataByte;
    if count > 0 {
      FrameData(id, data, count - 1);
      FrameByte(id, data, count - 1);
    }
  }

  lemma CrcFits(bits: seq<Binary>)
    ensures FromMsb(MsbFirst(Crc(bits), 15)) == Crc(bits)
  {
    CrcBound(0, bits);
    Pow15();
    FromMsbFirst(Crc(bits), 15);
  }

  /** Every field of a built frame reads back, and its CRC matches. */
  lemma FrameFields(id: nat, data: seq<Byte>)
    requires id < 0x800 && |data| <= 8
    ensures var f := FrameBits(id, data);
            Need(f) == |f| && Identifier(f) == id && DataCount(f) == |data| && Data(f, |data|) == data && CrcOk(f)
  {
    hide *;
    var f := FrameBits(id, data);
    FrameHeader(id, data);
    FrameData(id, data, |data|);
    assert data[..|data|] == data;
    CrcFits(Body(id, data));
    FrameSlices(id, data);
    CrcMatches(f, HEADER + 8 * |data|);
  }

  lemma CrcMatches(f: seq<Binary>, n: nat)
    requires |f| == n + 15 && n >= HEADER && Need(f) == |f| && Crc(f[..n]) == FromMsb(f[n..])
    ensures CrcOk(f)
  {
    hide Crc, FromMsb, DataCount;
    assert f[n..] == f[n..|f|];
  }

  // ------------------------------------------------------------ scanning

  /** Where a scan of the raw bits stops: a wrong stuff bit, or the unstuffed bits
      and the place after the last raw bit used. */
  datatype ScanResult = StuffError(at: nat) | Scanned(un: seq<Binary>, run: nat, last: int, next: nat)

  function Scan(raw: seq<Binary>, un: seq<Binary>, run: nat, last: int, i: nat): (r: ScanResult)
    requires i <= |raw|
    ensures r.Scanned? ==> r.next <= |raw|
    decreases |raw| - i
  {
    if i == |raw| then Scanned(un, run, last, i)
    else if run == 5 then
      if raw[i] == last then StuffError(i) else Scan(raw, un, 1, raw[i], i + 1)
    else if Complete(un) then Scanned(un, run, last, i)
    else Scan(raw, un + [raw[i]], RunAfter(run, last, raw[i]), raw[i], i + 1)
  }

  function ScanAll(raw: seq<Binary>): (r: ScanResult)
    ensures r.Scanned? ==> r.next <= |raw|
  {
    Scan(raw, [], 0, NO_BIT, 0)
  }

  /** A prefix of a frame is complete only when it is the frame. */
  lemma PrefixComplete(f: seq<Binary>, k: nat)
    requires |f| >= HEADER && Need(f) == |f| && k <= |f|
    ensures Complete(f[..k]) <==> k == |f|
  {
    assert f[..|f|] == f;
    if HEADER <= k {
      assert f[..k][15..HEADER] == f[15..HEADER];
    }
  }

  /** What a raw prefix of a stuffed frame and its tail scans to: not yet complete
      while stuffed bits are missing, else exactly the frame. */
  predicate ScansTo(r: ScanResult, f: seq<Binary>, raw: seq<Binary>, whole: nat) {
    && r.Scanned?
    && (|raw| < whole ==> !Complete(r.un) || (r.run == 5 && r.next == |raw|))
    && (|raw| >= whole ==> r.un == f && r.next == whole && r.run != 5)
  }

  /** The scanner takes out exactly the stuff bits the transmitter put in. */
  lemma {:induction false} ScanInverts(f: seq<Binary>, k: nat, run: nat, last: int, raw: seq<Binary>, i: nat,
                                       tail: seq<Binary>)
    requires |f| >= HEADER && Need(f) == |f| && k <= |f| && i <= |raw| && run <= 5
    requires last == NO_BIT || 0 <= last < 2
    requires last == NO_BIT ==> run == 0
    requires var s := Stuffed(run, last, f[k..]); raw[i..] <= s + tail
    ensures ScansTo(Scan(raw, f[..k], run, last, i), f, raw, i + |Stuffed(run, last, f[k..])|)
    decreases |raw| - i
  {
    var s := Stuffed(run, last, f[k..]);
    PrefixComplete(f, k);
    if i == |raw| {
      if k == |f| {
        assert f[..k] == f;
        assert f[k..] == [];
      }
    } else {
      assert raw[i] == raw[i..][0] == (s + tail)[0];
      assert raw[i..][1..] == raw[i + 1..];
      assert raw[i + 1..] <= (s + tail)[1..];
      if run == 5 {
        assert (s + tail)[1..] == s[1..] + tail;
        assert s[1..] == Stuffed(1, Flip(last), f[k..]);
        ScanInverts(f, k, 1, raw[i], raw, i + 1, tail);
      } else if k == |f| {
        assert f[..k] == f;
        assert f[k..] == [];
      } else {
        var b := f[k];
        assert f[k..][0] == b && f[k..][1..] == f[k + 1..];
        assert (s + tail)[1..] == s[1..] + tail;
        assert s[1..] == Stuffed(RunAfter(run, last, b), b, f[k + 1..]);
        assert f[..k] + [b] == f[..k + 1];
        ScanInverts(f, k + 1, RunAfter(run, last, b), b, raw, i + 1, tail);
      }
    }
  }

  lemma ScanOfStuffed(f: seq<Binary>, raw: seq<Binary>, tail: seq<Binary>)
    requires |f| >= HEADER && Need(f) == |f| && raw <= Stuff(f) + tail
    ensures ScansTo(ScanAll(raw), f, raw, |Stuff(f)|)
  {
    assert f[0..] == f && f[..0] == [] && raw[0..] == raw;
    ScanInverts(f, 0, 0, NO_BIT, raw, 0, tail);
  }

  /** Conversely, whatever scans without a stuff error is the stuffing of the bits
      that came out, up to a stuff bit still due at the end. */
  lemma SliceHead(un: seq<Binary>, b: Binary, all: seq<Binary>)
    requires un + [b] <= all
    ensures un <= all && all[|un|..] != [] && all[|un|..][0] == b && all[|un|..][1..] == all[|un + [b]|..]
  {
    assert all[|un|] == (un + [b])[|un|];
  }

  lemma {:induction false} ScanIsExactFrom(raw: seq<Binary>, un: seq<Binary>, run: nat, last: int, i: nat)
    requires i <= |raw| && run <= 5 && Scan(raw, un, run, last, i).Scanned?
    requires run == 5 ==> 0 <= last < 2
    ensures var r := Scan(raw, un, run, last, i);
            && r.run <= 5 && un <= r.un && i <= r.next <= |raw| && (r.run == 5 ==> r.next == |raw|)
            && Stuffed(run, last, r.un[|un|..]) ==
               raw[i..r.next] + (if r.run == 5 then [Flip(r.last)] else [])
    decreases |raw| - i
  {
    hide Complete, Stuffed;
    var r := Scan(raw, un, run, last, i);
    if i == |raw| || (run != 5 && Complete(un)) {
      assert r.un[|un|..] == [] && raw[i..i] == [];
      StuffedNone(run, last);
    } else {
      var b := raw[i];
      if run == 5 {
        ScanIsExactFrom(raw, un, 1, b, i + 1);
        StuffedFive(last, r.un[|un|..]);
      } else {
        ScanIsExactFrom(raw, un + [b], RunAfter(run, last, b), b, i + 1);
        SliceHead(un, b, r.un);
        StuffedOne(run, last, r.un[|un|..]);
      }
      assert raw[i..r.next] == [b] + raw[i + 1..r.next];
    }
  }

  lemma StuffedNone(run: nat, last: int)
    ensures Stuffed(run, last, []) == if run == 5 then [Flip(last)] else []
  {
    assert Stuffed(1, Flip(last), []) == [];
  }

  lemma StuffedFive(last: int, bits: seq<Binary>)
    ensures Stuffed(5, last, bits) == [Flip(last)] + Stuffed(1, Flip(last), bits)
  {
  }

  lemma StuffedOne(run: nat, last: int, bits: seq<Binary>)
    requires run != 5 && bits != []
    ensures Stuffed(run, last, bits) == [bits[0]] + Stuffed(RunAfter(run, last, bits[0]), bits[0], bits[1..])
  {
  }

  /** The receiver takes a raw sequence for a complete frame only when it is the
      stuffing of that frame, so two different frames never read alike. */
  lemma ScanIsExact(raw: seq<Binary>)
    requires var r := ScanAll(raw); r.Scanned? && r.run != 5
    ensures raw[..ScanAll(raw).next] == Stuff(ScanAll(raw).un)
  {
    var r := ScanAll(raw);
    ScanIsExactFrom(raw, [], 0, NO_BIT, 0);
    assert r.un[0..] == r.un && raw[0..r.next] == raw[..r.next];
  }

  /** The scan stops at the frame's length: it never takes a bit beyond it. */
  lemma {:induction false} ScanStopsAtNeed(raw: seq<Binary>, un: seq<Binary>, run: nat, last: int, i: nat)
    requires i <= |raw| && (|un| >= HEADER ==> |un| <= Need(un))
    ensures var r := Scan(raw, un, run, last, i); r.Scanned? && Complete(r.un) ==> |r.un| == Need(r.un)
    decreases |raw| - i
  {
    if i < |raw| {
      if run == 5 {
        if raw[i] != last {
          ScanStopsAtNeed(raw, un, 1, raw[i], i + 1);
        }
      } else if !Complete(un) {
        var next := un + [raw[i]];
        assert |un| >= HEADER ==> next[15..HEADER] == un[15..HEADER];
        hide FromMsb;
        ScanStopsAtNeed(raw, next, RunAfter(run, last, raw[i]), raw[i], i + 1);
      }
    }
  }

  /** The bits between the fields: start of frame, and the three control bits, all dominant. */
  lemma FrameControl(id: nat, data: seq<Byte>)
    ensures var f := FrameBits(id, data); f[0] == 0 && f[12] == 0 && f[13] == 0 && f[14] == 0
  {
    hide MsbFirst, DataBits, Crc;
    var start, ident, control := [0], MsbFirst(id, 11), [0, 0, 0];
    var front := start + ident + control;
    assert front[12] == 0 && front[13] == 0 && front[14] == 0 && front[0] == 0;
    assert FrameBits(id, data)[..15] == front;
  }
}
