/** CAN bit stuffing (Bosch CAN 2.0 Part A, section 5): after five equal bits the
    transmitter inserts the complement, and the receiver takes it out again. */
module CanStuffing {
  import opened Crc15

  /** `last` before the first bit. */
  const NO_BIT := -1

  function Flip(b: int): (f: Binary)
  {
    if b == 1 then 0 else 1
  }

  function RunAfter(run: nat, last: int, b: Binary): (r: nat) {
    if b == last then run + 1 else 1
  }

  /** What is still to be sent when the line has just carried `run` bits equal to
      `last` and `bits` are left: a stuff bit whenever the run has reached five. */
  function Stuffed(run: nat, last: int, bits: seq<Binary>): seq<Binary>
    decreases |bits|, if run == 5 then 1 else 0
  {
    if run == 5 then [Flip(last)] + Stuffed(1, Flip(last), bits)
    else if bits == [] then []
    else [bits[0]] + Stuffed(RunAfter(run, last, bits[0]), bits[0], bits[1..])
  }

  function Stuff(bits: seq<Binary>): seq<Binary> {
    Stuffed(0, NO_BIT, bits)
  }

  /** The transmitter's loop. */
  method StuffBits(bits: seq<Binary>) returns (out: seq<Binary>)
    ensures out == Stuff(bits)
  {
    out := [];
    var run, last := 0, NO_BIT;
    for i := 0 to |bits|
      invariant run < 5
      invariant out + Stuffed(run, last, bits[i..]) == Stuff(bits)
    {
      var b := bits[i];
      assert bits[i..][1..] == bits[i + 1..];
      ghost var rest := Stuffed(RunAfter(run, last, b), b, bits[i + 1..]);
      assert Stuffed(run, last, bits[i..]) == [b] + rest;
      assert out + ([b] + rest) == (out + [b]) + rest;
      out := out + [b];
      run := if b == last then run + 1 else 1;
      last := b;
      if run == 5 {
        ghost var after := Stuffed(1, Flip(b), bits[i + 1..]);
        assert rest == [Flip(b)] + after;
        assert out + ([Flip(b)] + after) == (out + [1 - b]) + after;
        out := out + [1 - b];
        run, last := 1, 1 - b;
      }
    }
    assert Stuffed(run, last, bits[|bits|..]) == [];
  }

  // ------------------------------------------------------------ never six equal bits

  /** No run in `s`, which follows `run` bits equal to `last`, is longer than five. */
  predicate Limited(run: nat, last: int, s: seq<Binary>)
    decreases |s|
  {
    s == [] || (RunAfter(run, last, s[0]) <= 5 && Limited(RunAfter(run, last, s[0]), s[0], s[1..]))
  }

  lemma {:induction false} StuffedIsLimited(run: nat, last: int, bits: seq<Binary>)
    requires run <= 5
    ensures Limited(run, last, Stuffed(run, last, bits))
    decreases |bits|, if run == 5 then 1 else 0
  {
    var s := Stuffed(run, last, bits);
    if run == 5 {
      StuffedIsLimited(1, Flip(last), bits);
      assert s[1..] == Stuffed(1, Flip(last), bits);
    } else if bits != [] {
      var r := RunAfter(run, last, bits[0]);
      StuffedIsLimited(r, bits[0], bits[1..]);
      assert s[1..] == Stuffed(r, bits[0], bits[1..]);
    }
  }

  predicate AllEqual(s: seq<Binary>) {
    forall k :: 0 <= k < |s| ==> s[k] == s[0]
  }

  lemma {:induction false} LimitedRun(run: nat, last: int, s: seq<Binary>, n: nat)
    requires Limited(run, last, s) && n <= |s| && (forall k :: 0 <= k < n ==> s[k] == last) && run + n >= 1
    ensures n > 0 ==> run + n <= 5
    decreases n
  {
    if n > 0 {
      LimitedRun(run + 1, last, s[1..], n - 1);
    }
  }

  lemma {:induction false} LimitedAt(run: nat, last: int, s: seq<Binary>, j: nat)
    requires Limited(run, last, s) && j + 6 <= |s|
    ensures !AllEqual(s[j..j + 6])
    decreases j
  {
    var r := RunAfter(run, last, s[0]);
    if j > 0 {
      LimitedAt(r, s[0], s[1..], j - 1);
      assert s[1..][j - 1..j + 5] == s[j..j + 6];
    } else if AllEqual(s[0..6]) {
      forall k | 0 <= k < 5 ensures s[1..][k] == s[0] {
        assert s[0..6][k + 1] == s[0..6][0];
      }
      LimitedRun(r, s[0], s[1..], 5);
      assert false;
    }
  }

  /** No six consecutive bits of a stuffed sequence are equal. */
  lemma NeverSixEqual(bits: seq<Binary>, j: nat)
    requires j + 6 <= |Stuff(bits)|
    ensures !AllEqual(Stuff(bits)[j..j + 6])
  {
    StuffedIsLimited(0, NO_BIT, bits);
    LimitedAt(0, NO_BIT, Stuff(bits), j);
  }

  /** Each stuff bit but the first costs four fresh frame bits. */
  lemma {:induction false} StuffedLength(run: nat, last: int, bits: seq<Binary>)
    requires 1 <= run <= 5
    ensures 4 * |Stuffed(run, last, bits)| <= 5 * |bits| + run - 1
    decreases |bits|, if run == 5 then 1 else 0
  {
    if run == 5 {
      StuffedLength(1, Flip(last), bits);
    } else if bits != [] {
      StuffedLength(RunAfter(run, last, bits[0]), bits[0], bits[1..]);
    }
  }

  lemma StuffLength(bits: seq<Binary>)
    ensures |Stuff(bits)| <= |bits| + (if bits == [] then 0 else (|bits| - 1) / 4)
  {
    if bits != [] {
      StuffedLength(1, bits[0], bits[1..]);
    }
  }

  /** Five equal bits, then blocks of four that continue the stuff bit before them. */
  function Blocks(n: nat, b: Binary): (s: seq<Binary>)
    ensures |s| == 4 * n
  {
    if n == 0 then [] else [b, b, b, b] + Blocks(n - 1, Flip(b))
  }

  lemma {:induction false} BlocksStuffed(n: nat, b: Binary)
    ensures |Stuffed(1, b, Blocks(n, b))| == 5 * n
  {
    if n > 0 {
      BlocksStuffed(n - 1, Flip(b));
      var rest := Blocks(n - 1, Flip(b));
      var s := Blocks(n, b);
      assert s[1..] == [b, b, b] + rest;
      assert s[1..][1..] == [b, b] + rest;
      assert s[1..][1..][1..] == [b] + rest;
      assert s[1..][1..][1..][1..] == rest;
      assert |Stuffed(4, b, [b] + rest)| == 2 + |Stuffed(1, Flip(b), rest)| by {
        assert ([b] + rest)[1..] == rest;
        assert Stuffed(5, b, rest) == [Flip(b)] + Stuffed(1, Flip(b), rest);
      }
      assert |Stuffed(3, b, [b, b] + rest)| == 1 + |Stuffed(4, b, [b] + rest)|;
      assert |Stuffed(2, b, [b, b, b] + rest)| == 1 + |Stuffed(3, b, [b, b] + rest)|;
    }
  }

  /** The bound is reached by messages of every length 4n + 1. */
  lemma StuffLengthTight(n: nat)
    ensures var bits := [0] + Blocks(n, 0); |Stuff(bits)| == |bits| + (|bits| - 1) / 4
  {
    var bits: seq<Binary> := [0] + Blocks(n, 0);
    assert bits[1..] == Blocks(n, 0);
    BlocksStuffed(n, 0);
  }
}
