/** The reference CRC-8: polynomial 0x07, most significant bit first, and its table. */
module Crc8 {
  import opened Bits

  const POLY8: Byte := 0x07

  /** One shift of the register. */
  function Shift8(crc: Byte): (r: Byte)
  {
    if crc >= 0x80 then Xor(2 * crc, POLY8) % 0x100 else (2 * crc) % 0x100
  }

  function Shifts8(crc: Byte, n: nat): Byte
    decreases n
  {
    if n == 0 then crc else Shifts8(Shift8(crc), n - 1)
  }

  /** One message byte into the register. */
  function Absorb(crc: Byte, b: Byte): Byte {
    XorByte(crc, b);
    Shifts8(Xor(crc, b), 8)
  }

  function Crc8From(crc: Byte, msg: seq<Byte>): Byte
    decreases |msg|
  {
    if msg == [] then crc else Crc8From(Absorb(crc, msg[0]), msg[1..])
  }

  function Crc(msg: seq<Byte>): Byte {
    Crc8From(0, msg)
  }

  lemma {:induction false} CrcSnoc(crc: Byte, msg: seq<Byte>, b: Byte)
    ensures Crc8From(crc, msg + [b]) == Absorb(Crc8From(crc, msg), b)
    decreases |msg|
  {
    hide Absorb;
    if msg == [] {
      assert [b][1..] == [] && [] + [b] == [b];
      assert Crc8From(crc, [b]) == Crc8From(Absorb(crc, b), []);
    } else {
      CrcSnoc(Absorb(crc, msg[0]), msg[1..], b);
      assert (msg + [b])[1..] == msg[1..] + [b];
    }
  }

  /** The reference loops. */
  method ComputeCrc8(msg: seq<Byte>, init: Byte) returns (crc: Byte)
    ensures crc == Crc8From(init, msg)
  {
    crc := init;
    for i := 0 to |msg|
      invariant Crc8From(crc, msg[i..]) == Crc8From(init, msg)
    {
      assert msg[i..][0] == msg[i] && msg[i..][1..] == msg[i + 1..];
      ghost var start := crc;
      XorByte(crc, msg[i]);
      crc := Xor(crc, msg[i]);
      for j := 0 to 8
        invariant Shifts8(crc, 8 - j) == Absorb(start, msg[i])
      {
        crc := if crc >= 0x80 then Xor(2 * crc, POLY8) % 0x100 else (2 * crc) % 0x100;
      }
    }
  }

  /** The table holds the CRC of each single byte. */
  function Table(): (t: seq<Byte>)
    ensures |t| == 256
  {
    seq(256, i requires 0 <= i < 256 => Crc([i]))
  }

  lemma CrcOfOne(b: Byte)
    ensures Crc([b]) == Shifts8(b, 8)
  {
    hide Shifts8, Xor;
    XorCommutes(0, b);
    XorZero(b);
    assert Absorb(0, b) == Shifts8(b, 8);
    hide Absorb;
    var rest := [b][1..];
    assert rest == [] && Crc([b]) == Crc8From(Absorb(0, b), rest);
  }

  /** Looking up the difference of register and byte absorbs the byte. */
  lemma TableAbsorbs(crc: Byte, b: Byte)
    ensures 0 <= Xor(b, crc) < 256 && Table()[Xor(b, crc)] == Absorb(crc, b)
  {
    XorByte(b, crc);
    XorCommutes(b, crc);
    CrcOfOne(Xor(b, crc));
    hide Crc, Shifts8;
  }

  /** What the firmware computes for one bit: shift, add the polynomial, and undo that
      if the bit shifted out was clear. */
  lemma TentativeXor(crc: Byte)
    ensures var x := (2 * crc) % 0x100;
            && Xor(x, POLY8) < 0x100
            && Shift8(crc) == (if Bit(crc, 7) == 1 then Xor(x, POLY8) else Xor(Xor(x, POLY8), POLY8))
  {
    var x := (2 * crc) % 0x100;
    XorByte(x, POLY8);
    XorUndo(x, POLY8);
    Pow8();
    XorCut(2 * crc, POLY8, 8);
    TopBit8(crc);
    hide Xor, Pow2;
  }

  lemma Pow8()
    ensures Pow2(8) == 0x100
  {
    assert Pow2(4) == 16;
  }

  lemma TopBit8(crc: Byte)
    ensures Bit(crc, 7) == (if crc >= 0x80 then 1 else 0)
  {
    var h := crc / 16;
    assert Bit(crc, 7) == Bit(crc / 2, 6) == Bit(crc / 2 / 2, 5) == Bit(crc / 2 / 2 / 2, 4) ==
           Bit(crc / 2 / 2 / 2 / 2, 3);
    assert crc / 2 / 2 / 2 / 2 == h;
    assert Bit(h, 3) == Bit(h / 2, 2) == Bit(h / 2 / 2, 1) == Bit(h / 2 / 2 / 2, 0);
  }
}
