/** The CAN CRC-15: a shift register fed one bit at a time (Bosch CAN 2.0 Part A,
    section 3.1.1), its linearity, its zero remainder and its burst detection. */
module Crc15 {
  import opened Bits

  type Binary = x: int | 0 <= x < 2

  const POLY := 0x4599

  function Add2(a: Binary, b: Binary): Binary {
    if a == b then 0 else 1
  }

  function Shift(crc: nat): (r: nat)
    ensures r < 0x8000
  {
    (2 * crc) % 0x8000
  }

  /** The bit about to leave the register. */
  function Top(crc: nat): Binary {
    Bit(crc, 14)
  }

  function CrcStep(crc: nat, b: Binary): nat {
    if Add2(b, Top(crc)) == 1 then Xor(Shift(crc), POLY) else Shift(crc)
  }

  /** The register after `bits`, from `crc`. */
  function CrcFrom(crc: nat, bits: seq<Binary>): nat
    decreases |bits|
  {
    if bits == [] then crc else CrcFrom(CrcStep(crc, bits[0]), bits[1..])
  }

  function Crc(bits: seq<Binary>): nat {
    CrcFrom(0, bits)
  }

  lemma Pow15()
    ensures Pow2(15) == 0x8000 && Pow2(14) == 0x4000
  {
    assert Pow2(3) == 8;
    assert Pow2(6) == 64;
    assert Pow2(9) == 512;
    assert Pow2(12) == 4096;
  }

  lemma StepBound(crc: nat, b: Binary)
    ensures CrcStep(crc, b) < 0x8000
  {
    Pow15();
    XorBound(Shift(crc), POLY, 15);
  }

  lemma {:induction false} CrcBound(crc: nat, bits: seq<Binary>)
    requires crc < 0x8000
    ensures CrcFrom(crc, bits) < 0x8000
    decreases |bits|
  {
    if bits != [] {
      StepBound(crc, bits[0]);
      CrcBound(CrcStep(crc, bits[0]), bits[1..]);
    }
  }

  lemma {:induction false} CrcConcat(crc: nat, a: seq<Binary>, b: seq<Binary>)
    ensures CrcFrom(crc, a + b) == CrcFrom(CrcFrom(crc, a), b)
    decreases |a|
  {
    if a == [] {
      assert a + b == b;
    } else {
      CrcConcat(CrcStep(crc, a[0]), a[1..], b);
      assert (a + b)[1..] == a[1..] + b;
    }
  }

  /** The loop of the receiver and the transmitter. */
  method ComputeCrc(bits: seq<Binary>) returns (crc: nat)
    ensures crc == Crc(bits) < 0x8000
  {
    crc := 0;
    for i := 0 to |bits|
      invariant crc < 0x8000 && CrcFrom(crc, bits[i..]) == Crc(bits)
    {
      var next := Add2(bits[i], Top(crc));
      StepBound(crc, bits[i]);
      assert bits[i..][0] == bits[i] && bits[i..][1..] == bits[i + 1..];
      crc := (2 * crc) % 0x8000;
      if next == 1 {
        crc := Xor(crc, POLY);
      }
    }
  }

  // ------------------------------------------------------------ linearity

  lemma ShiftLinear(a: nat, b: nat)
    ensures Shift(Xor(a, b)) == Xor(Shift(a), Shift(b))
  {
    Pow15();
    XorDouble(a, b);
    XorCut(2 * a, 2 * b, 15);
  }

  /** Swapping the middle two of four. */
  lemma XorMiddle(a: nat, b: nat, c: nat, d: nat)
    ensures Xor(Xor(a, b), Xor(c, d)) == Xor(Xor(a, c), Xor(b, d))
  {
    XorAssociates(a, b, Xor(c, d));
    XorAssociates(b, c, d);
    XorCommutes(b, c);
    XorAssociates(c, b, d);
    XorAssociates(a, c, Xor(b, d));
  }

  lemma StepLinear(c: nat, d: nat, a: Binary, b: Binary)
    ensures CrcStep(Xor(c, d), Add2(a, b)) == Xor(CrcStep(c, a), CrcStep(d, b))
  {
    var p, q := if Add2(a, Top(c)) == 1 then POLY else 0, if Add2(b, Top(d)) == 1 then POLY else 0;
    XorBit(c, d, 14);
    ShiftLinear(c, d);
    assert CrcStep(c, a) == Xor(Shift(c), p) by { XorZero(Shift(c)); }
    assert CrcStep(d, b) == Xor(Shift(d), q) by { XorZero(Shift(d)); }
    XorMiddle(Shift(c), p, Shift(d), q);
    XorSelf(POLY);
    XorZero(POLY);
    XorCommutes(0, POLY);
    XorZero(Shift(Xor(c, d)));
  }

  function XorBits(a: seq<Binary>, b: seq<Binary>): (r: seq<Binary>)
    requires |a| == |b|
    ensures |r| == |a|
  {
    seq(|a|, i requires 0 <= i < |a| => Add2(a[i], b[i]))
  }

  /** The register is linear in its start value and its input. */
  lemma {:induction false} CrcLinearFrom(c: nat, d: nat, a: seq<Binary>, b: seq<Binary>)
    requires |a| == |b|
    ensures CrcFrom(Xor(c, d), XorBits(a, b)) == Xor(CrcFrom(c, a), CrcFrom(d, b))
    decreases |a|
  {
    if a != [] {
      StepLinear(c, d, a[0], b[0]);
      CrcLinearFrom(CrcStep(c, a[0]), CrcStep(d, b[0]), a[1..], b[1..]);
      assert XorBits(a, b)[1..] == XorBits(a[1..], b[1..]);
    }
  }

  /** For messages of equal length, the CRC of the sum is the sum of the CRCs. */
  lemma CrcLinear(a: seq<Binary>, b: seq<Binary>)
    requires |a| == |b|
    ensures Crc(XorBits(a, b)) == Xor(Crc(a), Crc(b))
  {
    CrcLinearFrom(0, 0, a, b);
  }

  // ------------------------------------------------------------ remainder

  /** The `n` low bits of `x`, most significant first. */
  function MsbFirst(x: nat, n: nat): (bits: seq<Binary>)
    ensures |bits| == n
  {
    seq(n, k requires 0 <= k < n => Bit(x, n - 1 - k))
  }

  lemma {:induction false} BitOfDouble(x: nat, i: nat)
    ensures Bit(2 * x, i + 1) == Bit(x, i)
  {
  }

  lemma {:induction false} BitOfCut(x: nat, n: nat, i: nat)
    requires i < n
    ensures Bit(x % Pow2(n), i) == Bit(x, i)
    decreases i
  {
    ModHalf(x, Pow2(n - 1));
    if i > 0 {
      BitOfCut(x / 2, n - 1, i - 1);
    }
  }

  lemma ShiftBit(c: nat, i: nat)
    requires i < 14
    ensures Bit(Shift(c), i + 1) == Bit(c, i)
  {
    Pow15();
    BitOfCut(2 * c, 15, i + 1);
    BitOfDouble(c, i);
  }

  /** Feeding the register its own top `n` bits shifts them all out: what is left
      is the register shifted by `n` places. */
  lemma {:induction false} FeedTop(c: nat, n: nat)
    requires c < 0x8000 && n <= 15
    ensures CrcFrom(c, MsbFirst(c, 15)[..n]) == ShiftBy(c, n)
    decreases n
  {
    var top := MsbFirst(c, 15)[..n];
    if n > 0 {
      FeedTop(c, n - 1);
      var front := MsbFirst(c, 15)[..n - 1];
      assert top == front + [top[n - 1]];
      CrcConcat(c, front, [top[n - 1]]);
      ShiftByBit(c, n - 1);
      var s := ShiftBy(c, n - 1);
      assert CrcFrom(s, [top[n - 1]]) == CrcFrom(CrcStep(s, top[n - 1]), []) by {
        assert [top[n - 1]][1..] == [];
      }
    }
  }

  function ShiftBy(c: nat, n: nat): nat {
    if n == 0 then c else Shift(ShiftBy(c, n - 1))
  }

  lemma {:induction false} ShiftByBit(c: nat, n: nat)
    requires n <= 14
    ensures Bit(ShiftBy(c, n), 14) == Bit(c, 14 - n)
    decreases n
  {
    ShiftByBitAt(c, n, 14);
  }

  lemma {:induction false} ShiftByBitAt(c: nat, n: nat, i: nat)
    requires n <= i <= 14
    ensures Bit(ShiftBy(c, n), i) == Bit(c, i - n)
    decreases n
  {
    if n > 0 {
      ShiftBit(ShiftBy(c, n - 1), i - 1);
      ShiftByBitAt(c, n - 1, i - 1);
    }
  }

  lemma ShiftCut(x: nat)
    ensures Shift(x % 0x8000) == Shift(x)
  {
    var q, r := x / 0x8000, x % 0x8000;
    var q2, r2 := (2 * r) / 0x8000, (2 * r) % 0x8000;
    DivModUnique(2 * x, 0x8000, 2 * q + q2, r2);
  }

  lemma UnfoldShiftBy(c: nat, n: nat)
    requires n > 0
    ensures ShiftBy(c, n) == Shift(ShiftBy(c, n - 1))
  {
  }

  /** `n` shifts multiply by 2^n and cut. */
  lemma {:induction false} ShiftByIsPower(c: nat, n: nat)
    requires c < 0x8000
    ensures ShiftBy(c, n) == (c * Pow2(n)) % 0x8000
    decreases n
  {
    if n > 0 {
      ShiftByIsPower(c, n - 1);
      var p := Pow2(n - 1);
      assert Pow2(n) == 2 * p;
      ShiftCut(c * p);
      hide Pow2, ShiftBy;
      assert ShiftBy(c, n) == Shift(ShiftBy(c, n - 1)) by { UnfoldShiftBy(c, n); }
      assert c * (2 * p) == 2 * (c * p);
    }
  }

  /** Appending the CRC of a message makes the remainder zero. */
  lemma CrcRemainder(m: seq<Binary>)
    ensures Crc(m + MsbFirst(Crc(m), 15)) == 0
  {
    var c := Crc(m);
    CrcBound(0, m);
    CrcConcat(0, m, MsbFirst(c, 15));
    FeedTop(c, 15);
    assert MsbFirst(c, 15)[..15] == MsbFirst(c, 15);
    ShiftByIsPower(c, 15);
    Pow15();
    assert (c * 0x8000) % 0x8000 == 0 by {
      DivModUnique(c * 0x8000, 0x8000, c, 0);
    }
  }

  // ------------------------------------------------------------ burst detection

  /** The low `n` bits are zero. */
  predicate LowClear(c: nat, n: nat) {
    c % Pow2(n) == 0
  }

  predicate AllZero(bits: seq<Binary>) {
    forall i :: 0 <= i < |bits| ==> bits[i] == 0
  }

  /** The polynomial is odd, so a step that leaves an even register added nothing
      and only shifted: every clear low bit was clear one place lower before. */
  lemma StepBack(c: nat, b: Binary, n: nat)
    requires c < 0x8000 && 1 <= n <= 15 && LowClear(CrcStep(c, b), n)
    ensures LowClear(c, n - 1)
    ensures n == 15 ==> CrcStep(c, b) == 0 && (b == 0 ==> c == 0)
  {
    StepBound(c, b);
    EvenIfClear(CrcStep(c, b), n);
    EvenStepShifts(c, b);
    hide CrcStep, Shift;
    ShiftClear(c, n);
    if n == 15 {
      Pow15();
      hide Pow2;
      TopBit(c);
    }
  }

  lemma EvenStepShifts(c: nat, b: Binary)
    requires CrcStep(c, b) % 2 == 0
    ensures CrcStep(c, b) == Shift(c) && Add2(b, Top(c)) == 0
  {
    hide Shift, Xor, Top;
    ShiftEven(c);
    AddedOdd(Shift(c));
  }

  lemma ShiftEven(c: nat)
    ensures Shift(c) % 2 == 0
  {
  }

  lemma AddedOdd(r: nat)
    requires r % 2 == 0
    ensures Xor(r, POLY) % 2 == 1
  {
    XorHalves(r, POLY);
    hide Xor;
  }

  lemma EvenIfClear(r: nat, n: nat)
    requires n >= 1 && LowClear(r, n)
    ensures r % 2 == 0
  {
    var q, p := r / Pow2(n), Pow2(n - 1);
    assert r == Pow2(n) * q;
    assert r == 2 * (p * q);
  }

  lemma {:induction false} PowSplit(a: nat, b: nat)
    ensures Pow2(a + b) == Pow2(a) * Pow2(b)
    decreases a
  {
    if a > 0 {
      PowSplit(a - 1, b);
    }
  }

  lemma ShiftClear(c: nat, n: nat)
    requires c < 0x8000 && 1 <= n <= 15 && LowClear(Shift(c), n)
    ensures LowClear(c, n - 1)
  {
    Pow15();
    var p, k := Pow2(n - 1), Pow2(15 - n);
    PowSplit(15 - n, n);
    var q := Shift(c) / Pow2(n);
    HalfMultiple(c, p, k, q, Shift(c));
  }

  lemma HalfMultiple(c: nat, p: nat, k: nat, q: nat, s: nat)
    requires p >= 1 && k * (2 * p) == 0x8000 && s == (2 * p) * q && (s == 2 * c || s == 2 * c - 0x8000)
    ensures c % p == 0
  {
    assert 2 * (p * q) == s && 2 * (p * k) == 0x8000;
    var m := if s == 2 * c then q else q + k;
    assert p * (q + k) == p * q + p * k;
    DivModUnique(c, p, m, 0);
  }

  lemma TopBit(c: nat)
    requires c < 0x8000 && Shift(c) == 0
    ensures c == 0 || (c == 0x4000 && Top(c) == 1)
  {
    if c != 0 {
      assert c == 0x4000;
      assert Bit(0x4000, 14) == 1 by {
        assert Bit(0x4000, 14) == Bit(0x800, 11);
        assert Bit(0x800, 11) == Bit(0x100, 8);
        assert Bit(0x100, 8) == Bit(0x20, 5);
        assert Bit(0x20, 5) == Bit(4, 2);
      }
    }
  }

  /** If `j` bits later the register is zero, its low 15 - j bits are clear now. */
  lemma {:induction false} ZeroLater(c: nat, bits: seq<Binary>)
    requires c < 0x8000 && |bits| <= 15 && CrcFrom(c, bits) == 0
    ensures LowClear(c, 15 - |bits|)
    decreases |bits|
  {
    Pow15();
    if bits != [] {
      StepBound(c, bits[0]);
      ZeroLater(CrcStep(c, bits[0]), bits[1..]);
      StepBack(c, bits[0], 15 - |bits[1..]|);
    }
  }

  /** From the zero register, a 0 changes nothing and a 1 gives the polynomial. */
  lemma StepsFromZero()
    ensures CrcStep(0, 0) == 0 && CrcStep(0, 1) == POLY
  {
    BitOfZero(14);
    XorCommutes(0, POLY);
    XorZero(POLY);
    hide Xor, Bit;
  }

  lemma {:induction false} BitOfZero(i: nat)
    ensures Bit(0, i) == 0
  {
    if i > 0 {
      BitOfZero(i - 1);
    }
  }

  lemma {:induction false} ZerosKeepZero(bits: seq<Binary>)
    requires AllZero(bits)
    ensures CrcFrom(0, bits) == 0
    decreases |bits|
  {
    StepsFromZero();
    hide CrcStep;
    if bits != [] {
      ZerosKeepZero(bits[1..]);
    }
  }

  lemma {:induction false} ZerosKeepNonzero(c: nat, bits: seq<Binary>)
    requires 0 < c < 0x8000 && AllZero(bits)
    ensures CrcFrom(c, bits) != 0
    decreases |bits|
  {
    if bits != [] {
      StepBound(c, 0);
      if CrcStep(c, 0) == 0 {
        Pow15();
        StepBack(c, 0, 15);
        assert false;
      }
      ZerosKeepNonzero(CrcStep(c, 0), bits[1..]);
    }
  }

  /** A non-zero pattern of at most 15 bits leaves a non-zero register. */
  lemma {:induction false} BurstNonzero(bits: seq<Binary>)
    requires |bits| <= 15 && !AllZero(bits)
    ensures CrcFrom(0, bits) != 0
    decreases |bits|
  {
    StepsFromZero();
    hide CrcStep;
    if bits[0] == 0 {
      assert !AllZero(bits[1..]) by {
        var i :| 0 <= i < |bits| && bits[i] != 0;
        assert bits[1..][i - 1] != 0;
      }
      BurstNonzero(bits[1..]);
    } else {
      OddStaysNonzero(POLY, bits[1..]);
    }
  }

  lemma OddStaysNonzero(c: nat, bits: seq<Binary>)
    requires c < 0x8000 && c % 2 == 1 && |bits| < 15
    ensures CrcFrom(c, bits) != 0
  {
    hide CrcFrom;
    if CrcFrom(c, bits) == 0 {
      ZeroLater(c, bits);
      EvenIfClear(c, 15 - |bits|);
      assert false;
    }
  }

  /** Two messages of equal length that differ, and only inside a window of at most
      15 bits, have different CRCs. */
  lemma BurstDetected(a: seq<Binary>, b: seq<Binary>, from: nat, to: nat)
    requires |a| == |b| && a != b && from <= to <= |a| && to - from <= 15
    requires forall i :: 0 <= i < |a| && !(from <= i < to) ==> a[i] == b[i]
    ensures Crc(a) != Crc(b)
  {
    hide *;
    BurstParts(a, b, from, to);
    var d := XorBits(a, b);
    BurstFed(d[..from], d[from..to], d[to..]);
    CrcLinear(a, b);
    XorSelf(Crc(a));
    CrcOfAll(d);
  }

  lemma CrcOfAll(d: seq<Binary>)
    ensures Crc(d) == CrcFrom(0, d)
  {
  }

  /** The difference is zero but for the window. */
  lemma BurstParts(a: seq<Binary>, b: seq<Binary>, from: nat, to: nat)
    requires |a| == |b| && a != b && from <= to <= |a|
    requires forall i :: 0 <= i < |a| && !(from <= i < to) ==> a[i] == b[i]
    ensures var d := XorBits(a, b);
            && |d| == |a| && d == d[..from] + (d[from..to] + d[to..])
            && AllZero(d[..from]) && !AllZero(d[from..to]) && AllZero(d[to..])
  {
    var d := XorBits(a, b);
    DifferentInside(a, b, from, to);
    assert d == d[..from] + (d[from..to] + d[to..]);
  }

  lemma DifferentInside(a: seq<Binary>, b: seq<Binary>, from: nat, to: nat)
    requires |a| == |b| && a != b && from <= to <= |a|
    requires forall i :: 0 <= i < |a| && !(from <= i < to) ==> a[i] == b[i]
    ensures !AllZero(XorBits(a, b)[from..to])
  {
    var d := XorBits(a, b);
    var mid := d[from..to];
    var i :| 0 <= i < |a| && a[i] != b[i];
    assert mid[i - from] == d[i] == 1;
  }

  lemma BurstFed(pre: seq<Binary>, mid: seq<Binary>, post: seq<Binary>)
    requires AllZero(pre) && !AllZero(mid) && |mid| <= 15 && AllZero(post)
    ensures CrcFrom(0, pre + (mid + post)) != 0
  {
    hide *;
    CrcConcat(0, pre, mid + post);
    ZerosKeepZero(pre);
    CrcConcat(0, mid, post);
    BurstNonzero(mid);
    CrcBound(0, mid);
    ZerosKeepNonzero(CrcFrom(0, mid), post);
  }
}
