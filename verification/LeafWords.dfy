/** The random straight-line words both program generators draw from.

    The random number generator is an oracle: every draw is an arbitrary value in
    the range the source asks for, so what is proved holds for every seed. */
module LeafWords {
  import opened Bits
  import opened Isa
  import opened Machine
  import opened Structured
  import opened Wrappers

  const PROTOCOL_PINS := [0, 1, 2, 3, 7]

  /** Largest mantissa per exponent. */
  type Caps = map<nat, int>

  predicate CapsFit(caps: Caps, lo: int, hi: int) {
    && caps.Keys != {}
    && forall e :: e in caps ==> e < 4 && lo <= caps[e] <= hi
  }

  predicate DelayCaps(caps: Caps) { CapsFit(caps, 0, 511) }

  predicate WaitCaps(caps: Caps) { CapsFit(caps, 1, 31) }

  method RandInt(lo: int, hi: int) returns (r: int)
    requires lo <= hi
    ensures lo <= r <= hi
  {
    r :| lo <= r <= hi;
  }

  /** A protocol pin index. */
  method ChoosePin() returns (p: int)
    ensures p in PROTOCOL_PINS && 0 <= p < 8
  {
    var k := RandInt(0, 4);
    p := PROTOCOL_PINS[k];
  }

  /** A destination register, other than `forbid` when that is given. */
  method ChooseReg(forbid: Option<nat>) returns (r: int)
    ensures 0 <= r < 4 && forbid != Some(r)
  {
    r :| 0 <= r < 4 && forbid != Some(r) by {
      assert forbid != Some(0) || forbid != Some(1);
      assert 0 <= 0 < 4 && 0 <= 1 < 4;
    }
  }

  /** A leaf instruction of the defined opcodes: what `DrawLeaf` may draw. */
  predicate IsLeaf(i: Instr) {
    && InRange(i) && !i.Reserved?
    && (IsData(i) || i.Delay? || i.Wait?)
    && (i.Wait? ==> i.mantissa != 0)
  }

  /** A leaf word of a defined opcode. */
  predicate DefinedLeaf(w: Word) {
    IsLeaf(Decode(w))
  }

  lemma EncodedLeaf(i: Instr)
    requires IsLeaf(i)
    ensures Decode(Encode(i)) == i && DefinedLeaf(Encode(i)) && LeafWord(Encode(i))
  {
    DecodeEncode(i);
  }

  /** Draws the operands of one of the 19 pool entries `op`. */
  method DrawLeaf(op: nat, delays: Caps, waits: Caps, forbid: Option<nat>) returns (i: Instr)
    requires DelayCaps(delays) && WaitCaps(waits)
    ensures IsLeaf(i)
    ensures Writes(i) ==> forbid != Some(i.rd)
  {
    var r := RandInt(0, 3);
    var s := RandInt(0, 3);
    var rd := ChooseReg(forbid);
    var aux := RandInt(0, 1);
    if op == 0 {
      var v := RandInt(0, 255);
      i := Ldi(rd, v);
    } else if op == 1 {
      i := Out(r);
    } else if op == 2 {
      var pin := RandInt(0, 7);
      i := SetPin(s, pin, aux);
    } else if op == 3 {
      var pin := RandInt(0, 7);
      i := OutBit(r, pin, aux);
    } else if op == 4 {
      i := Shift(rd, aux);
    } else if op == 5 {
      var e :| e in delays;
      var m := RandInt(0, delays[e]);
      i := Delay(m, e);
    } else if op == 6 {
      var b := RandInt(0, 7);
      i := TestBit(r, b);
    } else if op == 7 {
      i := Cmp(r, s);
    } else if op == 8 {
      var a := RandInt(0, 511);
      i := Load(rd, a);
    } else if op == 9 {
      var a := RandInt(0, 511);
      i := Store(r, a);
    } else if op == 10 {
      i := LoadX(rd, s);
    } else if op == 11 {
      i := XorReg(rd, s);
    } else if op == 12 {
      i := Instr.Add(rd, s);
    } else if op == 13 {
      var e :| e in waits;
      var m := RandInt(1, waits[e]);
      var pin := ChoosePin();
      i := Wait(pin, aux, m, e);
    } else if op == 14 {
      i := In(rd);
    } else if op == 15 {
      var pin := ChoosePin();
      i := InBit(rd, pin, aux);
    } else {
      i := Nop;
    }
  }

  /** A random leaf word; `forbid` protects a loop counter from being written. */
  method GenLeafWord(delays: Caps, waits: Caps, forbid: Option<nat>) returns (w: Word)
    requires DelayCaps(delays) && WaitCaps(waits)
    ensures DefinedLeaf(w) && LeafWord(w)
    ensures forbid.Some? ==> Keeps(w, {forbid.value})
  {
    var op := RandInt(0, 16);
    var i := DrawLeaf(op, delays, waits, forbid);
    EncodedLeaf(i);
    w := Encode(i);
  }
}
