/** The assembler's choice of mantissa and exponent for a cycle count. */
module EncodeCycles {
  import opened Bits
  import opened Machine
  import opened Wrappers

  /** `mantissa * Unit(exponent)` cycles. */
  datatype Choice = Choice(mantissa: nat, exponent: nat, actual: nat)

  function Distance(a: nat, b: nat): (d: nat)
  {
    if a >= b then a - b else b - a
  }

  function Largest(bits: nat): nat {
    Pow2(bits) - 1
  }

  /** The nearest multiple of one unit, as far as the mantissa reaches. */
  function Candidate(cycles: nat, bits: nat, e: nat): Choice
    requires e < 4
  {
    var rounded := (cycles + Unit(e) / 2) / Unit(e);
    var m := if rounded < Largest(bits) then rounded else Largest(bits);
    Choice(m, e, m * Unit(e))
  }

  /** The best of the exponents 0 to `e`. */
  function Best(cycles: nat, bits: nat, e: nat): Choice
    requires e < 4
  {
    var c := Candidate(cycles, bits, e);
    if e == 0 then c
    else
      var b := Best(cycles, bits, e - 1);
      if Distance(c.actual, cycles) < Distance(b.actual, cycles) then c else b
  }

  function Nearest(cycles: nat, bits: nat): Choice {
    Best(cycles, bits, 3)
  }

  method Encode(cycles: int, bits: nat) returns (r: Option<Choice>)
    ensures r == if cycles < 0 then None else Some(Nearest(cycles, bits))
  {
    if cycles < 0 {
      return None;
    }
    var best: Option<Choice> := None;
    for e := 0 to 4
      invariant e == 0 ==> best == None
      invariant e > 0 ==> best == Some(Best(cycles, bits, e - 1))
    {
      hide Pow2, Distance;
      var unit := Unit(e);
      var rounded := (cycles + unit / 2) / unit;
      var m := if rounded < Largest(bits) then rounded else Largest(bits);
      var actual := m * unit;
      assert Choice(m, e, actual) == Candidate(cycles, bits, e);
      hide Candidate, Unit;
      if best.None? || Distance(actual, cycles) < Distance(best.value.actual, cycles) {
        best := Some(Choice(m, e, actual));
      }
    }
    return best;
  }

  // ------------------------------------------------------------ optimality

  predicate Encodable(c: Choice, bits: nat) {
    c.mantissa <= Largest(bits) && c.exponent < 4 && c.actual == c.mantissa * Unit(c.exponent)
  }

  lemma DivBounds(x: nat, u: nat)
    requires u > 0
    ensures (x / u) * u <= x < (x / u) * u + u
  {
    assert x == u * (x / u) + x % u;
  }

  lemma NextMultiple(a: nat, b: nat, u: nat)
    requires a < b
    ensures a * u + u <= b * u
  {
    var gap := b - a - 1;
    assert b * u == (a + 1 + gap) * u == a * u + u + gap * u;
  }

  /** Of two multiples on a line, given where the rounded one lies. */
  lemma Closer(cycles: nat, u: nat, rounded: nat, a: nat, b: nat)
    requires u == 1 || (u > 0 && u % 2 == 0)
    requires rounded <= cycles + u / 2 < rounded + u
    requires (a <= rounded && b + u <= a) || (a == rounded && a + u <= b)
    ensures Distance(a, cycles) <= Distance(b, cycles)
    ensures a < b ==> Distance(a, cycles) < Distance(b, cycles)
  {
  }

  /** Within one unit size no multiple in reach is closer, and an equally close one is
      smaller. */
  lemma NearestMultiple(cycles: nat, u: nat, q: nat, max: nat, m: nat, other: nat)
    requires u == 1 || (u > 0 && u % 2 == 0)
    requires q * u <= cycles + u / 2 < q * u + u && m == (if q < max then q else max) && other <= max
    ensures Distance(m * u, cycles) <= Distance(other * u, cycles)
    ensures Distance(m * u, cycles) == Distance(other * u, cycles) ==> other <= m
  {
    hide Distance;
    if other < m {
      NextMultiple(other, m, u);
      if m < q {
        NextMultiple(m, q, u);
      }
      Closer(cycles, u, q * u, m * u, other * u);
    } else if other > m {
      NextMultiple(m, other, u);
      Closer(cycles, u, q * u, m * u, other * u);
    }
  }

  lemma CandidateNearest(cycles: nat, bits: nat, e: nat, other: Choice)
    requires e < 4 && Encodable(other, bits) && other.exponent == e
    ensures Encodable(Candidate(cycles, bits, e), bits)
    ensures var c := Candidate(cycles, bits, e);
            && Distance(c.actual, cycles) <= Distance(other.actual, cycles)
            && (Distance(c.actual, cycles) == Distance(other.actual, cycles) ==> other.mantissa <= c.mantissa)
  {
    var q := (cycles + Unit(e) / 2) / Unit(e);
    DivBounds(cycles + Unit(e) / 2, Unit(e));
    NearestMultiple(cycles, Unit(e), q, Largest(bits), Candidate(cycles, bits, e).mantissa, other.mantissa);
    hide Distance, Largest;
  }

  /** Preferred: strictly closer, or as close with a finer exponent, or as close with
      the same exponent and a mantissa no smaller. */
  predicate Preferred(a: Choice, b: Choice, cycles: nat) {
    var da, db := Distance(a.actual, cycles), Distance(b.actual, cycles);
    da < db || (da == db && (a.exponent < b.exponent || (a.exponent == b.exponent && a.mantissa >= b.mantissa)))
  }

  lemma {:induction false} BestPreferred(cycles: nat, bits: nat, e: nat, other: Choice)
    requires e < 4 && Encodable(other, bits) && other.exponent <= e
    ensures Encodable(Best(cycles, bits, e), bits) && Best(cycles, bits, e).exponent <= e
    ensures Preferred(Best(cycles, bits, e), other, cycles)
    decreases e
  {
    var self, least := Choice(0, e, 0), Choice(0, 0, 0);
    assert Encodable(self, bits) && Encodable(least, bits);
    hide Candidate, Distance, Encodable, Unit;
    CandidateNearest(cycles, bits, e, if other.exponent == e then other else self);
    if e > 0 {
      BestPreferred(cycles, bits, e - 1, if other.exponent < e then other else least);
    }
  }

  /** No encoding is closer than the one chosen, and of the equally close ones it has
      the smallest exponent. */
  lemma NearestIsOptimal(cycles: nat, bits: nat, other: Choice)
    requires Encodable(other, bits)
    ensures Encodable(Nearest(cycles, bits), bits)
    ensures Distance(Nearest(cycles, bits).actual, cycles) <= Distance(other.actual, cycles)
    ensures Distance(Nearest(cycles, bits).actual, cycles) == Distance(other.actual, cycles) ==>
              Nearest(cycles, bits).exponent <= other.exponent
  {
    BestPreferred(cycles, bits, 3, other);
  }

  /** A positive time never rounds to nothing, so the assembler's "rounds to 0" error
      cannot be raised. */
  lemma NeverRoundsToZero(cycles: nat, bits: nat)
    requires cycles > 0 && bits > 0
    ensures Nearest(cycles, bits).mantissa > 0
  {
    assert Pow2(bits) >= 2;
    var one := Choice(1, 0, 1);
    NearestIsOptimal(cycles, bits, one);
    var n := Nearest(cycles, bits);
    hide Nearest, Pow2;
    assert n.mantissa == 0 ==> n.actual == 0;
  }

  // ------------------------------------------------------------ the error bound

  /** An encoding at most one part in 33 off. For each exponent the reach of the next
      finer one ends at the sixteenth multiple. */
  lemma Close9(cycles: nat) returns (m: nat, e: nat)
    requires cycles <= 511 * 32768
    ensures m <= 511 && e < 4 && 33 * Distance(m * Unit(e), cycles) <= cycles
  {
    if cycles <= 511 {
      m, e := cycles, 0;
    } else if cycles <= 511 * 32 {
      m, e := (cycles + 16) / 32, 1;
    } else if cycles <= 511 * 1024 {
      m, e := (cycles + 512) / 1024, 2;
      if cycles < 512 * 32 - 16 {
        m, e := 511, 1;
      }
    } else {
      m, e := (cycles + 16384) / 32768, 3;
      if cycles < 512 * 1024 - 512 {
        m, e := 511, 2;
      }
    }
  }

  /** The same with a five-bit mantissa, and one part in 3. */
  lemma Close5(cycles: nat) returns (m: nat, e: nat)
    requires cycles <= 31 * 32768
    ensures m <= 31 && e < 4 && 3 * Distance(m * Unit(e), cycles) <= cycles
  {
    if cycles <= 31 {
      m, e := cycles, 0;
    } else if cycles <= 31 * 32 {
      m, e := (cycles + 16) / 32, 1;
    } else if cycles <= 31 * 1024 {
      m, e := (cycles + 512) / 1024, 2;
    } else {
      m, e := (cycles + 16384) / 32768, 3;
    }
  }

  lemma Mantissas()
    ensures Largest(9) == 511 && Largest(5) == 31
  {
    assert Pow2(5) == 32;
    assert Pow2(9) == 512;
  }

  /** DELAY, with its nine-bit mantissa, is off by at most one part in 33, and WAIT,
      with five bits, by at most one part in 3; both bounds are reached. */
  lemma RelativeError(cycles: nat)
    ensures cycles <= 511 * 32768 ==> 33 * Distance(Nearest(cycles, 9).actual, cycles) <= cycles
    ensures cycles <= 31 * 32768 ==> 3 * Distance(Nearest(cycles, 5).actual, cycles) <= cycles
    ensures 33 * Distance(Nearest(528, 9).actual, 528) == 528
    ensures 3 * Distance(Nearest(48, 5).actual, 48) == 48
  {
    Mantissas();
    if cycles <= 511 * 32768 {
      var m, e := Close9(cycles);
      NearestIsOptimal(cycles, 9, Choice(m, e, m * Unit(e)));
    }
    if cycles <= 31 * 32768 {
      var m, e := Close5(cycles);
      NearestIsOptimal(cycles, 5, Choice(m, e, m * Unit(e)));
    }
    Tight();
    hide Nearest;
  }

  lemma Tight()
    ensures Nearest(528, 9).actual == 544 && Nearest(48, 5).actual == 64
  {
    Mantissas();
    assert Best(528, 9, 1) == Choice(17, 1, 544);
    assert Best(48, 5, 1) == Choice(2, 1, 64);
  }
}
