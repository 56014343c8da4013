/** Both checksums as remainders of polynomial division over bits: numbers are polynomials, bit
    k the coefficient of x^k, and `Xor` is their sum. */
module CrcPolynomials {
  import opened Bits
  import Crc15
  import Crc8
  import opened CanFrame

  /** x^15 + x^14 + x^10 + x^8 + x^7 + x^4 + x^3 + 1. */
  const CAN_GENERATOR: nat := 0xC599

  /** x^8 + x^2 + x + 1. */
  const CRC8_GENERATOR: nat := 0x107

  /** The product of two polynomials. */
  function Product(a: nat, b: nat): nat {
    if a == 0 then 0 else Xor(2 * Product(a / 2, b), if a % 2 == 1 then b else 0)
  }

  ghost predicate Divides(g: nat, n: nat) {
    exists q: nat :: Product(q, g) == n
  }

  // ------------------------------------------------------------ sums

  lemma XorFour(a: nat, b: nat, c: nat, d: nat)
    ensures Xor(Xor(a, b), Xor(c, d)) == Xor(Xor(a, c), Xor(b, d))
  {
    XorAssociates(a, b, Xor(c, d));
    XorAssociates(b, c, d);
    XorCommutes(b, c);
    XorAssociates(c, b, d);
    XorAssociates(a, c, Xor(b, d));
  }

  /** `a` moved up by `n` places. */
  function Moved(a: nat, n: nat): nat {
    a * Pow2(n)
  }

  lemma MovedNone(a: nat)
    ensures Moved(a, 0) == a
  {
  }

  lemma MovedOnce(a: nat, n: nat)
    requires n > 0
    ensures Moved(a, n) == 2 * Moved(a, n - 1)
  {
    var p := Pow2(n - 1);
    assert Pow2(n) == 2 * p;
    hide Pow2;
    assert a * (2 * p) == 2 * (a * p);
  }

  /** Numbers without a common bit add like integers. */
  lemma {:induction false} MovedDisjoint(a: nat, b: nat, n: nat)
    requires b < Pow2(n)
    ensures Xor(Moved(a, n), b) == Moved(a, n) + b
    decreases n
  {
    hide Moved, Xor;
    MovedNone(a);
    XorZero(a);
    if n > 0 {
      MovedOnce(a, n);
      MovedDisjoint(a, b / 2, n - 1);
      XorHalves(2 * Moved(a, n - 1), b);
    }
  }

  lemma XorDisjoint(a: nat, b: nat, n: nat)
    requires b < Pow2(n)
    ensures Xor(a * Pow2(n), b) == a * Pow2(n) + b
  {
    MovedDisjoint(a, b, n);
    hide Xor, Pow2;
  }

  lemma {:induction false} MovedSum(a: nat, b: nat, n: nat)
    ensures Xor(Moved(a, n), Moved(b, n)) == Moved(Xor(a, b), n)
    decreases n
  {
    hide Moved, Xor;
    MovedNone(a);
    MovedNone(b);
    MovedNone(Xor(a, b));
    if n > 0 {
      MovedOnce(a, n);
      MovedOnce(b, n);
      MovedOnce(Xor(a, b), n);
      MovedSum(a, b, n - 1);
      XorDouble(Moved(a, n - 1), Moved(b, n - 1));
    }
  }

  lemma XorScaled(a: nat, b: nat, n: nat)
    ensures Xor(a * Pow2(n), b * Pow2(n)) == Xor(a, b) * Pow2(n)
  {
    MovedSum(a, b, n);
    hide Xor, Pow2;
  }

  // ------------------------------------------------------------ multiples

  lemma ProductDouble(q: nat, g: nat)
    ensures Product(2 * q, g) == 2 * Product(q, g)
  {
    if q > 0 {
      XorZero(2 * Product(q, g));
      assert 2 * q / 2 == q;
    }
  }

  lemma ProductStep(a: nat, g: nat)
    ensures Product(a, g) == Xor(2 * Product(a / 2, g), if a % 2 == 1 then g else 0)
  {
  }

  lemma {:induction false} ProductSum(a: nat, b: nat, g: nat)
    ensures Product(Xor(a, b), g) == Xor(Product(a, g), Product(b, g))
    decreases a + b
  {
    if a == 0 && b == 0 {
    } else {
      ProductSum(a / 2, b / 2, g);
      ProductStep(a, g);
      ProductStep(b, g);
      ProductStep(Xor(a, b), g);
      XorHalves(a, b);
      var p, q := Product(a / 2, g), Product(b / 2, g);
      var x, y := if a % 2 == 1 then g else 0, if b % 2 == 1 then g else 0;
      XorDouble(p, q);
      XorFour(2 * p, x, 2 * q, y);
      XorSelf(g);
      XorZero(g);
      XorCommutes(0, g);
      XorZero(0);
      hide Xor, Product;
    }
  }

  lemma DividesSum(g: nat, m: nat, n: nat)
    requires Divides(g, m) && Divides(g, n)
    ensures Divides(g, Xor(m, n))
  {
    var p: nat :| Product(p, g) == m;
    var q: nat :| Product(q, g) == n;
    ProductSum(p, q, g);
    hide Product, Xor;
    assert Product(Xor(p, q), g) == Xor(m, n);
  }

  lemma DividesDouble(g: nat, n: nat)
    requires Divides(g, n)
    ensures Divides(g, 2 * n)
  {
    var q: nat :| Product(q, g) == n;
    ProductDouble(q, g);
    hide Product;
    assert Product(2 * q, g) == 2 * n;
  }

  lemma DividesItself(g: nat)
    ensures Divides(g, g) && Divides(g, 0)
  {
    assert Product(0, g) == 0;
    XorZero(g);
    XorCommutes(0, g);
    assert Product(1, g) == Xor(2 * Product(0, g), g);
  }

  /** A polynomial has no multiple of smaller degree but zero. */
  lemma {:induction false} NoSmallMultiple(q: nat, g: nat, n: nat)
    requires q > 0 && Pow2(n) <= g < 2 * Pow2(n)
    ensures Product(q, g) >= Pow2(n)
    decreases q
  {
    ProductStep(q, g);
    var half := Product(q / 2, g);
    if q / 2 == 0 {
      assert half == 0;
      XorCommutes(0, g);
      XorZero(g);
    } else {
      NoSmallMultiple(q / 2, g, n);
      HighStays(2 * half, if q % 2 == 1 then g else 0, n + 1);
    }
  }

  lemma {:induction false} HighStays(a: nat, b: nat, n: nat)
    requires a >= Pow2(n) && b < Pow2(n)
    ensures Xor(a, b) >= Pow2(n)
    decreases n
  {
    if n == 0 {
      XorZero(a);
    } else {
      HighStays(a / 2, b / 2, n - 1);
      XorHalves(a, b);
      hide Xor;
    }
  }

  /** So remainders are unique. */
  lemma RemainderUnique(g: nat, n: nat, m: nat, r: nat, s: nat)
    requires Pow2(n) <= g < 2 * Pow2(n) && r < Pow2(n) && s < Pow2(n)
    requires Divides(g, Xor(m, r)) && Divides(g, Xor(m, s))
    ensures r == s
  {
    DividesSum(g, Xor(m, r), Xor(m, s));
    XorFour(m, r, m, s);
    XorSelf(m);
    XorCommutes(0, Xor(r, s));
    XorZero(Xor(r, s));
    XorBound(r, s, n);
    hide Xor, Product;
    var q: nat :| Product(q, g) == Xor(r, s);
    if q > 0 {
      NoSmallMultiple(q, g, n);
    }
    NullProduct(g);
    SameIfNull(r, s);
  }

  lemma NullProduct(g: nat)
    ensures Product(0, g) == 0
  {
  }

  lemma SameIfNull(r: nat, s: nat)
    requires Xor(r, s) == 0
    ensures r == s
  {
    XorUndo(r, s);
    XorCommutes(0, s);
    XorZero(s);
    hide Xor;
  }

  // ------------------------------------------------------------ one shift of a register

  /** Shift an `n`-bit register by one place, and take off the generator if a bit came out. */
  predicate Shifted(n: nat, poly: nat, z: nat, next: nat)
    requires n >= 1
  {
    && z < Pow2(n) && poly < Pow2(n)
    && next == if z >= Pow2(n - 1) then Xor(2 * z % Pow2(n), poly) else 2 * z % Pow2(n)
  }

  /** A shift multiplies by x and reduces: what is subtracted is a multiple. */
  lemma ShiftReduces(n: nat, poly: nat, z: nat, next: nat)
    requires n >= 1 && Shifted(n, poly, z, next)
    ensures Divides(Pow2(n) + poly, Xor(2 * z, next))
  {
    hide Divides, Xor, Pow2;
    var p := Pow2(n);
    DividesItself(p + poly);
    Overflow(n, z);
    if z >= Pow2(n - 1) {
      OverflowIs(n, poly, 2 * z - p);
    } else {
      XorSelf(2 * z);
    }
  }

  lemma Overflow(n: nat, z: nat)
    requires n >= 1 && z < Pow2(n)
    ensures z >= Pow2(n - 1) ==> 2 * z >= Pow2(n) && 2 * z % Pow2(n) == 2 * z - Pow2(n)
    ensures z < Pow2(n - 1) ==> 2 * z % Pow2(n) == 2 * z
  {
    var p, h := Pow2(n), Pow2(n - 1);
    assert p == 2 * h;
    hide Pow2;
    if z >= h {
      DivModUnique(2 * z, p, 1, 2 * z - p);
    } else {
      DivModUnique(2 * z, p, 0, 2 * z);
    }
  }

  lemma OverflowIs(n: nat, poly: nat, low: nat)
    requires low < Pow2(n) && poly < Pow2(n)
    ensures Xor(Pow2(n) + low, Xor(low, poly)) == Pow2(n) + poly
  {
    var p := Pow2(n);
    XorDisjoint(1, low, n);
    XorDisjoint(1, poly, n);
    hide Xor, Pow2;
    XorAssociates(p, low, Xor(low, poly));
    XorAssociates(low, low, poly);
    XorSelf(low);
    XorCommutes(0, poly);
    XorZero(poly);
  }

  /** If the generator divides u + z, it divides xu + the shifted z. */
  lemma ShiftKeeps(n: nat, poly: nat, u: nat, z: nat, next: nat)
    requires n >= 1 && Shifted(n, poly, z, next) && Divides(Pow2(n) + poly, Xor(u, z))
    ensures Divides(Pow2(n) + poly, Xor(2 * u, next))
  {
    hide *;
    var g := Pow2(n) + poly;
    ShiftReduces(n, poly, z, next);
    DividesDouble(g, Xor(u, z));
    XorDouble(u, z);
    DividesSum(g, Xor(2 * u, 2 * z), Xor(2 * z, next));
    Telescoped(2 * u, 2 * z, next);
  }

  lemma Telescoped(a: nat, b: nat, c: nat)
    ensures Xor(Xor(a, b), Xor(b, c)) == Xor(a, c)
  {
    hide Xor;
    XorAssociates(a, b, Xor(b, c));
    XorAssociates(b, b, c);
    XorSelf(b);
    XorCommutes(0, c);
    XorZero(c);
  }

  /** Adding the same to both keeps the sum. */
  lemma AddedBoth(u: nat, z: nat, x: nat)
    ensures Xor(Xor(u, x), Xor(z, x)) == Xor(u, z)
  {
    XorFour(u, x, z, x);
    XorSelf(x);
    XorZero(Xor(u, z));
  }

  // ------------------------------------------------------------ CRC-15

  lemma StepIsShift(c: nat, b: Crc15.Binary)
    requires c < 0x8000
    ensures Shifted(15, Crc15.POLY, Xor(c, b * 0x4000), Crc15.CrcStep(c, b))
  {
    Crc15.Pow15();
    var z := Xor(c, b * 0x4000);
    XorBound(c, b * 0x4000, 15);
    TopAdded(c, b);
    hide Xor, Pow2;
    assert z < 0x8000;
  }

  /** The message bit is added to the bit about to leave, and to no other. */
  lemma TopAdded(c: nat, b: Crc15.Binary)
    requires c < 0x8000
    ensures var z := Xor(c, b * 0x4000);
            && (z >= 0x4000 <==> Crc15.Add2(b, Crc15.Top(c)) == 1)
            && z < 0x8000 && 2 * z % 0x8000 == Crc15.Shift(c)
  {
    hide Xor, Pow2, Crc15.Top;
    var low, top := c % 0x4000, c / 0x4000;
    TopIs(c);
    XorLow(top, low);
    XorCommutes(low, top * 0x4000);
    XorAssociates(low, top * 0x4000, b * 0x4000);
    XorTops(top, b);
    OneBit(top, b);
    var x := Xor(top, b);
    XorCommutes(low, x * 0x4000);
    XorLow(x, low);
    assert Xor(c, b * 0x4000) == x * 0x4000 + low;
  }

  lemma XorTops(a: nat, b: nat)
    ensures Xor(a * 0x4000, b * 0x4000) == Xor(a, b) * 0x4000
  {
    Crc15.Pow15();
    XorScaled(a, b, 14);
  }

  lemma XorLow(x: nat, low: nat)
    requires low < 0x4000
    ensures Xor(x * 0x4000, low) == x * 0x4000 + low
  {
    Crc15.Pow15();
    XorDisjoint(x, low, 14);
  }

  lemma OneBit(a: nat, b: nat)
    requires a < 2 && b < 2
    ensures Xor(a, b) == if a == b then 0 else 1
  {
    XorZero(a);
    XorZero(b);
    XorCommutes(0, b);
    XorSelf(a);
  }

  lemma TopIs(c: nat)
    requires c < 0x8000
    ensures Crc15.Top(c) == c / 0x4000
  {
    Crc15.Pow15();
    BitIsQuotient(c, 14);
  }

  lemma CanNone()
    ensures Divides(CAN_GENERATOR, Xor(FromMsb([]) * 0x8000, Crc15.Crc([])))
  {
    XorZero(0);
    DividesItself(CAN_GENERATOR);
  }

  lemma {:induction false} CanDivides(m: seq<Crc15.Binary>)
    ensures Divides(CAN_GENERATOR, Xor(FromMsb(m) * 0x8000, Crc15.Crc(m)))
    decreases |m|
  {
    hide *;
    if m == [] {
      CanNone();
    } else {
      var k := |m| - 1;
      CanDivides(m[..k]);
      CanNext(m);
      Crc15.CrcBound(0, m[..k]);
      CrcIs(m[..k]);
      CanStep(FromMsb(m[..k]), Crc15.Crc(m[..k]), m[k]);
    }
  }

  lemma CrcIs(m: seq<Crc15.Binary>)
    ensures Crc15.Crc(m) == Crc15.CrcFrom(0, m)
  {
  }

  lemma CanNext(m: seq<Crc15.Binary>)
    requires m != []
    ensures var k := |m| - 1;
            Crc15.Crc(m) == Crc15.CrcStep(Crc15.Crc(m[..k]), m[k]) && FromMsb(m) == 2 * FromMsb(m[..k]) + m[k]
  {
    var k := |m| - 1;
    var last := [m[k]];
    assert m == m[..k] + last;
    Crc15.CrcConcat(0, m[..k], last);
    assert last[1..] == [];
    var c := Crc15.Crc(m[..k]);
    hide Crc15.CrcStep;
    assert Crc15.CrcFrom(c, last) == Crc15.CrcFrom(Crc15.CrcStep(c, m[k]), []);
  }

  lemma CanStep(v: nat, c: nat, b: Crc15.Binary)
    requires c < 0x8000 && Divides(CAN_GENERATOR, Xor(v * 0x8000, c))
    ensures Divides(CAN_GENERATOR, Xor((2 * v + b) * 0x8000, Crc15.CrcStep(c, b)))
  {
    Crc15.Pow15();
    hide Divides, Xor, Pow2;
    var x: nat := b * 0x4000;
    StepIsShift(c, b);
    AddedBoth(v * 0x8000, c, x);
    ShiftKeeps(15, Crc15.POLY, Xor(v * 0x8000, x), Xor(c, x), Crc15.CrcStep(c, b));
    BitBelow(v, x);
  }

  lemma BitBelow(v: nat, x: nat)
    requires x < 0x8000
    ensures Xor(v * 0x8000, x) == v * 0x8000 + x
  {
    Crc15.Pow15();
    XorDisjoint(v, x, 15);
  }

  /** The CRC of a message is the remainder of its polynomial, times x^15, by the CAN
      generator: the one register value that makes message and CRC together divisible. */
  lemma CanRemainder(m: seq<Crc15.Binary>, r: nat)
    requires r < 0x8000
    ensures Divides(CAN_GENERATOR, Xor(FromMsb(m) * 0x8000, r)) <==> r == Crc15.Crc(m)
  {
    CanDivides(m);
    Crc15.CrcBound(0, m);
    Crc15.Pow15();
    hide Divides, Xor, Pow2;
    if Divides(CAN_GENERATOR, Xor(FromMsb(m) * 0x8000, r)) {
      RemainderUnique(CAN_GENERATOR, 15, FromMsb(m) * 0x8000, r, Crc15.Crc(m));
    }
  }

  // ------------------------------------------------------------ CRC-8

  /** The number whose bytes these are, first byte highest. */
  function FromBytes(msg: seq<Byte>): nat
    decreases |msg|
  {
    if msg == [] then 0 else 0x100 * FromBytes(msg[..|msg| - 1]) + msg[|msg| - 1]
  }

  lemma Shift8IsShift(z: Byte)
    ensures Shifted(8, 7, z, Crc8.Shift8(z))
  {
    Crc8.Pow8();
    XorCut(2 * z, 7, 8);
    assert Pow2(7) == 128;
    hide Xor, Pow2;
  }

  lemma {:induction false} ShiftsKeep(u: nat, z: Byte, n: nat)
    requires Divides(CRC8_GENERATOR, Xor(u, z))
    ensures Divides(CRC8_GENERATOR, Xor(Pow2(n) * u, Crc8.Shifts8(z, n)))
    decreases n
  {
    hide Divides, Xor;
    if n > 0 {
      Crc8.Pow8();
      Shift8IsShift(z);
      ShiftKeeps(8, 7, u, z, Crc8.Shift8(z));
      ShiftsKeep(2 * u, Crc8.Shift8(z), n - 1);
      assert Pow2(n) * u == Pow2(n - 1) * (2 * u);
    }
  }

  lemma ByteBelow(v: nat, b: Byte)
    ensures Xor(v * 0x100, b) == v * 0x100 + b
  {
    Crc8.Pow8();
    XorDisjoint(v, b, 8);
  }

  lemma AbsorbKeeps(v: nat, c: Byte, b: Byte)
    requires Divides(CRC8_GENERATOR, Xor(v * 0x100, c))
    ensures Divides(CRC8_GENERATOR, Xor((0x100 * v + b) * 0x100, Crc8.Absorb(c, b)))
  {
    Crc8.Pow8();
    hide Divides, Xor, Pow2, Crc8.Shifts8;
    XorByte(c, b);
    AddedBoth(v * 0x100, c, b);
    ByteBelow(v, b);
    ShiftsKeep(Xor(v * 0x100, b), Xor(c, b), 8);
  }

  lemma {:induction false} Crc8Divides(msg: seq<Byte>)
    ensures Divides(CRC8_GENERATOR, Xor(FromBytes(msg) * 0x100, Crc8.Crc(msg)))
    decreases |msg|
  {
    if msg == [] {
      XorZero(0);
      DividesItself(CRC8_GENERATOR);
    } else {
      var k := |msg| - 1;
      Crc8Divides(msg[..k]);
      assert msg == msg[..k] + [msg[k]];
      Crc8.CrcSnoc(0, msg[..k], msg[k]);
      hide Divides, Crc8.Absorb;
      AbsorbKeeps(FromBytes(msg[..k]), Crc8.Crc(msg[..k]), msg[k]);
    }
  }

  /** And the CRC-8 is the remainder by its generator. */
  lemma Crc8Remainder(msg: seq<Byte>, r: Byte)
    ensures Divides(CRC8_GENERATOR, Xor(FromBytes(msg) * 0x100, r)) <==> r == Crc8.Crc(msg)
  {
    Crc8Divides(msg);
    Crc8.Pow8();
    hide Divides, Xor, Pow2, Crc8.Crc;
    if Divides(CRC8_GENERATOR, Xor(FromBytes(msg) * 0x100, r)) {
      RemainderUnique(CRC8_GENERATOR, 8, FromBytes(msg) * 0x100, r, Crc8.Crc(msg));
    }
  }
}
