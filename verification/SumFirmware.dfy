/** The multi-byte sum idiom: ADD sets the flag on carry, BNE skips the increment of the
    high byte when there is none. */
module SumFirmware {
  import opened Bits
  import opened Isa
  import opened Machine
  import opened Runs
  import opened FirmwareRuns
  import opened CrcFirmware

  const LONGEST := 60

  /** One message byte: R1:R0 is the sum, R2 the byte, R3 is 1. */
  function SumBlock(k: nat, base: nat): (code: seq<Instr>)
    ensures |code| == 4
  {
    [Load(2, k), Add(0, 2), Branch(COND_BNE, base + 4), Add(1, 3)]
  }

  function SumCode(n: nat): (code: seq<Instr>)
    ensures |code| == 3 + 4 * n
  {
    if n == 0 then [Ldi(0, 0), Ldi(1, 0), Ldi(3, 1)] else SumCode(n - 1) + SumBlock(n - 1, 3 + 4 * (n - 1))
  }

  function Whole(n: nat): (code: seq<Instr>)
    ensures |code| == 13 + 4 * n
  {
    SumCode(n) + SendCode(0) + SendCode(1)
  }

  lemma {:induction false} SumEncodable(n: nat)
    requires n <= LONGEST
    ensures Encodable(SumCode(n))
  {
    if n > 0 {
      SumEncodable(n - 1);
    }
  }

  lemma WholeEncodable(n: nat)
    requires n <= LONGEST
    ensures Encodable(Whole(n)) && Encodable(Whole(n) + [Halt])
  {
    SumEncodable(n);
    SendEncodable(0);
    SendEncodable(1);
    hide SumCode, SendCode, InRange;
    assert InRange(Halt) by { HaltFits(); }
  }

  lemma HaltFits()
    ensures InRange(Halt)
  {
  }

  function SumProgram(n: nat): Program
    requires n <= LONGEST
  {
    WholeEncodable(n);
    Assembled(Whole(n) + [Halt])
  }

  /** The source's append loop. */
  method BuildSum(n: nat) returns (words: Program)
    requires n <= LONGEST
    ensures words == SumProgram(n) && |words| <= 256
  {
    var code := [Ldi(0, 0), Ldi(1, 0), Ldi(3, 1)];
    for k := 0 to n
      invariant code == SumCode(k)
    {
      var here := |code|;
      code := code + [Load(2, k), Add(0, 2)];
      var next := here + 4;
      code := code + [Branch(COND_BNE, next), Add(1, 3)];
      assert code == SumCode(k) + SumBlock(k, 3 + 4 * k);
    }
    code := code + SendCode(0) + SendCode(1);
    WholeEncodable(n);
    words := Assembled(code + [Halt]);
  }

  // ------------------------------------------------------------ the sum

  function Sum(msg: seq<Byte>): nat {
    if msg == [] then 0 else Sum(msg[..|msg| - 1]) + msg[|msg| - 1]
  }

  lemma SumNext(msg: seq<Byte>, m: nat)
    requires 0 < m <= |msg|
    ensures Sum(msg[..m]) == Sum(msg[..m - 1]) + msg[m - 1]
  {
    assert msg[..m][..m - 1] == msg[..m - 1];
  }

  /** The low and the high byte of a sum kept modulo 2^16. */
  predicate Holds(k: Core, pc: nat, sum: nat) {
    k.pc == pc && |k.regs| == 4 && k.regs[0] == sum % 256 && k.regs[1] == (sum / 256) % 256 && k.regs[3] == 1
  }

  /** Adding a byte carries into the high byte exactly when the low bytes overflow. */
  lemma CarryStep(sum: nat, b: Byte)
    ensures (sum + b) % 256 == (sum % 256 + b) % 256
    ensures ((sum + b) / 256) % 256 == ((sum / 256) % 256 + (if sum % 256 + b > 255 then 1 else 0)) % 256
  {
    var q, r := sum / 256, sum % 256;
    var carry := if r + b > 255 then 1 else 0;
    DivModUnique(sum + b, 256, q + carry, r + b - 256 * carry);
    DivModUnique(r + b, 256, carry, r + b - 256 * carry);
    ModPlus(q, carry);
  }

  lemma ModPlus(q: nat, c: nat)
    requires c < 2
    ensures (q + c) % 256 == (q % 256 + c) % 256
  {
  }

  // ------------------------------------------------------------ one byte

  lemma SumAt(n: nat, base: nat)
    ensures var code := SumBlock(n, base);
            && code[0] == Load(2, n) && code[1] == Add(0, 2) && code[2] == Branch(COND_BNE, base + 4)
            && code[3] == Add(1, 3)
  {
  }

  lemma AddSteps(k: Core, mem: seq<Byte>, base: nat, n: nat, b: Byte, sum: nat) returns (k1: Core, k2: Core, k3: Core)
    requires |mem| == DATA_BYTES && n < 512 && mem[n] == b && Holds(k, base, sum) && base + 4 < 511
    ensures CoreOk(k, mem) && InRange(Load(2, n)) && Plain(Load(2, n)) && k1 == CoreStep(k, Load(2, n), mem)
    ensures k1.pc == base + 1
    ensures CoreOk(k1, mem) && InRange(Add(0, 2)) && Plain(Add(0, 2)) && k2 == CoreStep(k1, Add(0, 2), mem)
    ensures k2.pc == base + 2
    ensures CoreOk(k2, mem) && InRange(Branch(COND_BNE, base + 4)) && Plain(Branch(COND_BNE, base + 4))
    ensures k3 == CoreStep(k2, Branch(COND_BNE, base + 4), mem)
    ensures if sum % 256 + b > 255 then
              && CoreOk(k3, mem) && k3.pc == base + 3 && InRange(Add(1, 3)) && Plain(Add(1, 3))
              && Holds(CoreStep(k3, Add(1, 3), mem), base + 4, sum + b)
            else Holds(k3, base + 4, sum + b)
  {
    CarryStep(sum, b);
    k1 := CoreStep(k, Load(2, n), mem);
    k2 := CoreStep(k1, Add(0, 2), mem);
    k3 := CoreStep(k2, Branch(COND_BNE, base + 4), mem);
  }

  lemma RunSumBlock(prog: Program, io: Stimulus, c: Config, k: Core, mem: seq<Byte>, base: nat, n: nat, b: Byte,
                    sum: nat)
    returns (d: Config, k': Core)
    requires AtCore(c, k, mem) && |mem| == DATA_BYTES && n < 512 && mem[n] == b && Holds(k, base, sum) && base + 4 < 511
    requires CodeAt(prog, base, SumBlock(n, base))
    ensures AtCore(d, k', mem) && Holds(k', base + 4, sum + b) && Reaches(prog, io, c, d, [])
  {
    hide *;
    var code := SumBlock(n, base);
    SumAt(n, base);
    AtCoreValid(c, k, mem);
    HoldsAt(k, base, sum);
    var k1, k2, k3 := AddSteps(k, mem, base, n, b, sum);
    ReachesSelf(prog, io, c);
    var c1 := BlockStep(prog, io, c, c, k, mem, base, code, 0);
    var c2 := BlockStep(prog, io, c, c1, k1, mem, base, code, 1);
    d := BlockStep(prog, io, c, c2, k2, mem, base, code, 2);
    k' := k3;
    if sum % 256 + b > 255 {
      d := BlockStep(prog, io, c, d, k3, mem, base, code, 3);
      k' := CoreStep(k3, code[3], mem);
    }
  }

  lemma HoldsAt(k: Core, pc: nat, sum: nat)
    requires Holds(k, pc, sum)
    ensures k.pc == pc && |k.regs| == 4 && k.regs[0] == sum % 256 && k.regs[1] == (sum / 256) % 256
  {
  }

  // ------------------------------------------------------------ the whole program

  lemma {:induction false} SumPrefix(n: nat, m: nat)
    requires m <= n
    ensures |SumCode(n)| >= 3 + 4 * m && SumCode(n)[..3 + 4 * m] == SumCode(m)
    decreases n
  {
    if m < n {
      SumPrefix(n - 1, m);
      assert SumCode(n)[..3 + 4 * m] == SumCode(n - 1)[..3 + 4 * m];
    }
  }

  /** Where the parts of the program lie. */
  lemma PartAt(n: nat, a: nat, part: seq<Instr>)
    requires n <= LONGEST && a + |part| <= 13 + 4 * n && Whole(n)[a..a + |part|] == part
    ensures CodeAt(SumProgram(n), a, part)
  {
    WholeEncodable(n);
    hide Whole, Assembled, CodeAt;
    BlockInProgram(Whole(n), a, part);
  }

  lemma SumBlockAt(n: nat, m: nat)
    requires m < n <= LONGEST
    ensures CodeAt(SumProgram(n), 3 + 4 * m, SumBlock(m, 3 + 4 * m))
  {
    hide SumBlock, SumProgram, CodeAt, SendCode;
    SumPrefix(n, m + 1);
    var a := 3 + 4 * m;
    assert SumCode(m + 1)[a..] == SumBlock(m, a);
    assert Whole(n)[a..a + 4] == SumCode(n)[..3 + 4 * (m + 1)][a..];
    PartAt(n, a, SumBlock(m, a));
  }

  lemma HeadAt(n: nat)
    requires n <= LONGEST
    ensures CodeAt(SumProgram(n), 0, [Ldi(0, 0), Ldi(1, 0), Ldi(3, 1)])
  {
    SumPrefix(n, 0);
    hide SumProgram, CodeAt, SendCode;
    assert SumCode(0) == [Ldi(0, 0), Ldi(1, 0), Ldi(3, 1)];
    assert Whole(n)[0..3] == SumCode(n)[..3];
    PartAt(n, 0, SumCode(0));
  }

  lemma SendsAt(n: nat)
    requires n <= LONGEST
    ensures CodeAt(SumProgram(n), 3 + 4 * n, SendCode(0)) && CodeAt(SumProgram(n), 8 + 4 * n, SendCode(1))
  {
    hide SumProgram, CodeAt, SendCode, SumCode;
    var a := 3 + 4 * n;
    assert Whole(n)[a..a + 5] == SendCode(0) && Whole(n)[a + 5..a + 10] == SendCode(1);
    PartAt(n, a, SendCode(0));
    PartAt(n, a + 5, SendCode(1));
  }

  lemma RunSumHead(prog: Program, io: Stimulus, c: Config, mem: seq<Byte>) returns (d: Config, k: Core)
    requires |mem| == DATA_BYTES && Live(c) && c.s.pc == 0 && c.s.dataMem == mem
    requires CodeAt(prog, 0, [Ldi(0, 0), Ldi(1, 0), Ldi(3, 1)])
    ensures Reaches(prog, io, c, d, []) && AtCore(d, k, mem) && Holds(k, 3, 0)
  {
    var head := [Ldi(0, 0), Ldi(1, 0), Ldi(3, 1)];
    ReachesSelf(prog, io, c);
    k := Core(0, c.s.regs, c.s.flag);
    hide CodeAt, Reaches;
    d := BlockStep(prog, io, c, c, k, mem, 0, head, 0);
    k := CoreStep(k, head[0], mem);
    hide AtCore;
    d := BlockStep(prog, io, c, d, k, mem, 0, head, 1);
    k := CoreStep(k, head[1], mem);
    d := BlockStep(prog, io, c, d, k, mem, 0, head, 2);
    k := CoreStep(k, head[2], mem);
  }

  predicate InFront(msg: seq<Byte>, mem: seq<Byte>) {
    |msg| <= |mem| && msg == mem[..|msg|]
  }

  lemma Sizes()
    ensures LONGEST == 60 && DATA_BYTES == 512
  {
  }

  /** A silent run has put this sum into the registers. */
  ghost predicate Summed(prog: Program, io: Stimulus, c: Config, d: Config, k: Core, mem: seq<Byte>, pc: nat,
                         sum: nat) {
    Reaches(prog, io, c, d, []) && AtCore(d, k, mem) && Holds(k, pc, sum)
  }

  lemma SummedIs(prog: Program, io: Stimulus, c: Config, d: Config, k: Core, mem: seq<Byte>, pc: nat, sum: nat)
    requires Summed(prog, io, c, d, k, mem, pc, sum)
    ensures Reaches(prog, io, c, d, []) && AtCore(d, k, mem) && Holds(k, pc, sum)
  {
  }

  /** After `m` bytes. */
  lemma {:induction false} SumBlocks(msg: seq<Byte>, m: nat, io: Stimulus, c: Config, mem: seq<Byte>)
    returns (d: Config, k: Core)
    requires m <= |msg| <= LONGEST && |mem| == DATA_BYTES && InFront(msg, mem)
    requires Live(c) && c.s.pc == 0 && c.s.dataMem == mem
    ensures Summed(SumProgram(|msg|), io, c, d, k, mem, 3 + 4 * m, SumTo(msg, m))
    decreases m
  {
    hide *;
    Sizes();
    if m == 0 {
      d, k := SumStart(|msg|, io, c, mem);
      SumToNone(msg);
    } else {
      var d1, k1 := SumBlocks(msg, m - 1, io, c, mem);
      d, k := OneMore(msg, m - 1, io, c, d1, k1, mem);
      SumToNext(msg, m);
    }
  }

  lemma OneMore(msg: seq<Byte>, m: nat, io: Stimulus, c: Config, d1: Config, k1: Core, mem: seq<Byte>)
    returns (d: Config, k: Core)
    requires m < |msg| <= LONGEST && |mem| == DATA_BYTES && InFront(msg, mem)
    requires Summed(SumProgram(|msg|), io, c, d1, k1, mem, 3 + 4 * m, SumTo(msg, m))
    ensures Summed(SumProgram(|msg|), io, c, d, k, mem, 7 + 4 * m, SumTo(msg, m) + msg[m])
  {
    hide *;
    Sizes();
    SumBlockAt(|msg|, m);
    ByteOf(msg, mem, m);
    d, k := NextByte(SumProgram(|msg|), io, c, d1, k1, mem, 3 + 4 * m, m, msg[m], SumTo(msg, m));
  }

  lemma ByteOf(msg: seq<Byte>, mem: seq<Byte>, k: nat)
    requires InFront(msg, mem) && k < |msg|
    ensures msg[k] == mem[k]
  {
  }

  lemma NextByte(prog: Program, io: Stimulus, c: Config, d1: Config, k1: Core, mem: seq<Byte>, base: nat, n: nat,
                 b: Byte, sum: nat)
    returns (d: Config, k: Core)
    requires Summed(prog, io, c, d1, k1, mem, base, sum)
    requires |mem| == DATA_BYTES && n < 512 && mem[n] == b && base + 4 < 511 && CodeAt(prog, base, SumBlock(n, base))
    ensures Summed(prog, io, c, d, k, mem, base + 4, sum + b)
  {
    hide Reaches, AtCore, Holds, CodeAt, SumBlock;
    d, k := RunSumBlock(prog, io, d1, k1, mem, base, n, b, sum);
    Silently(prog, io, c, d1, d);
  }

  /** The sum of the first `m` bytes. */
  function SumTo(msg: seq<Byte>, m: nat): nat
    requires m <= |msg|
  {
    Sum(msg[..m])
  }

  lemma SumToNone(msg: seq<Byte>)
    ensures SumTo(msg, 0) == 0
  {
  }

  lemma SumToNext(msg: seq<Byte>, m: nat)
    requires 0 < m <= |msg|
    ensures SumTo(msg, m) == SumTo(msg, m - 1) + msg[m - 1]
  {
    SumNext(msg, m);
  }

  lemma SumStart(n: nat, io: Stimulus, c: Config, mem: seq<Byte>) returns (d: Config, k: Core)
    requires n <= LONGEST && |mem| == DATA_BYTES && Live(c) && c.s.pc == 0 && c.s.dataMem == mem
    ensures Summed(SumProgram(n), io, c, d, k, mem, 3, 0)
  {
    hide Reaches, AtCore, Holds, CodeAt, SumProgram, Live;
    HeadAt(n);
    d, k := RunSumHead(SumProgram(n), io, c, mem);
  }

  /** For every message of up to sixty bytes at the start of data memory, from any
      registers: the program halts having presented the low and then the high byte of the
      sum of the message modulo 2^16, if the host answers the waits the run comes to. */
  lemma SumHalts(msg: seq<Byte>, io: Stimulus, c: Config) returns (d: Config)
    requires |msg| <= LONGEST && Live(c) && c.s.pc == 0 && msg == c.s.dataMem[..|msg|]
    requires Attends(SumProgram(|msg|), io, c)
    ensures Reaches(SumProgram(|msg|), io, c, d, SumBytes(msg)) && d.s.halted
  {
    hide *;
    LoadedInFront(msg, c);
    var mem, prog := c.s.dataMem, SumProgram(|msg|);
    var d1, k1 := SumReady(msg, io, c, mem);
    AttendsLater(prog, io, c, d1, []);
    d := SendsEnd(prog, io, d1, k1, mem);
    FromStart(prog, io, c, d1, d, k1.regs[0], k1.regs[1]);
  }

  lemma LoadedInFront(msg: seq<Byte>, c: Config)
    requires |msg| <= LONGEST && Live(c) && msg == c.s.dataMem[..|msg|]
    ensures |c.s.dataMem| == DATA_BYTES && InFront(msg, c.s.dataMem)
  {
  }

  /** The loop of additions is over, and both sends and the HALT are ahead. */
  lemma SumReady(msg: seq<Byte>, io: Stimulus, c: Config, mem: seq<Byte>) returns (d: Config, k: Core)
    requires |msg| <= LONGEST && Live(c) && c.s.pc == 0 && c.s.dataMem == mem && |mem| == DATA_BYTES
    requires InFront(msg, mem)
    ensures var prog := SumProgram(|msg|);
            && Reaches(prog, io, c, d, []) && AtCore(d, k, mem) && k.pc + 10 < 511
            && |k.regs| == 4 && [k.regs[0], k.regs[1]] == SumBytes(msg)
            && CodeAt(prog, k.pc, SendCode(0)) && CodeAt(prog, k.pc + 5, SendCode(1))
            && Decode(Fetch(prog, k.pc + 10)) == Halt
  {
    hide *;
    Sizes();
    var n := |msg|;
    d, k := SumBlocks(msg, n, io, c, mem);
    SummedIs(SumProgram(n), io, c, d, k, mem, 3 + 4 * n, SumTo(msg, n));
    SumBytesAre(msg, k, 3 + 4 * n);
    SendsAt(n);
    HaltThere(n);
  }

  /** Both bytes presented, then HALT. */
  lemma SendsEnd(prog: Program, io: Stimulus, c: Config, k: Core, mem: seq<Byte>) returns (d: Config)
    requires AtCore(c, k, mem) && k.pc + 10 < 511 && |k.regs| == 4 && |mem| == DATA_BYTES && Attends(prog, io, c)
    requires CodeAt(prog, k.pc, SendCode(0)) && CodeAt(prog, k.pc + 5, SendCode(1))
    requires Decode(Fetch(prog, k.pc + 10)) == Halt
    ensures Reaches(prog, io, c, d, [k.regs[0], k.regs[1]]) && d.s.halted
  {
    hide *;
    var low, high := k.regs[0], k.regs[1];
    var d2, f2 := SendStep(prog, io, c, k, mem, 0);
    AttendsLater(prog, io, c, d2, [low]);
    var k2 := Core(k.pc + 5, k.regs, f2);
    var d3, f3 := SendStep(prog, io, d2, k2, mem, 1);
    var k3 := Core(k.pc + 10, k.regs, f3);
    CoreIsOk(k3, mem);
    d := HaltEnds(prog, io, d3, k3, mem);
    Gathered(prog, io, c, d2, d3, d, low, high);
  }

  lemma CoreIsOk(k: Core, mem: seq<Byte>)
    requires k.pc < 511 && |k.regs| == 4 && |mem| == DATA_BYTES
    ensures CoreOk(k, mem)
  {
  }

  /** The sum modulo 2^16, low byte first. */
  function SumBytes(msg: seq<Byte>): seq<Byte> {
    [Sum(msg) % 256, (Sum(msg) / 256) % 256]
  }

  lemma SumBytesAre(msg: seq<Byte>, k: Core, pc: nat)
    requires Holds(k, pc, SumTo(msg, |msg|))
    ensures k.pc == pc && |k.regs| == 4 && [k.regs[0], k.regs[1]] == SumBytes(msg)
  {
    assert msg[..|msg|] == msg;
  }

  /** For every host whatever: what the program has presented at any point is an initial
      part of the two bytes of the sum, it is both when the program halts, and it halts
      exactly if the host answers the waits the run comes to. */
  lemma SumComputed(msg: seq<Byte>, io: Stimulus, c: Config, d: Config, outs: seq<Byte>)
    requires |msg| <= LONGEST && Live(c) && c.s.pc == 0 && msg == c.s.dataMem[..|msg|]
    requires Reaches(SumProgram(|msg|), io, c, d, outs)
    ensures outs <= SumBytes(msg) && (d.s.halted ==> outs == SumBytes(msg))
    ensures CanHalt(SumProgram(|msg|), io, c) <==> Attends(SumProgram(|msg|), io, c)
  {
    var prog, io' := SumProgram(|msg|), Switched(io, d.t);
    hide Reaches, Attends, SumProgram, Switched, Live, SumBytes;
    SomeHostAttends(prog, io, c, d, outs);
    var e := SumHalts(msg, io', c);
    OutputsPrefix(prog, io', c, e, SumBytes(msg), d, outs);
    if Attends(prog, io, c) {
      var h := SumHalts(msg, io, c);
    }
    if CanHalt(prog, io, c) {
      var h: Config, all: seq<Byte> :| Reaches(prog, io, c, h, all) && h.s.halted;
      HaltsOnlyAttended(prog, io, c, h, all);
    }
  }

  lemma HaltThere(n: nat)
    requires n <= LONGEST
    ensures Decode(Fetch(SumProgram(n), 13 + 4 * n)) == Halt
  {
    WholeEncodable(n);
    hide Whole, Decode, Fetch, Encodable, Assembled;
    HaltAt(Whole(n));
  }

  lemma Gathered(prog: Program, io: Stimulus, c: Config, d2: Config, d3: Config, d: Config, low: Byte, high: Byte)
    requires Reaches(prog, io, c, d2, [low]) && Reaches(prog, io, d2, d3, [high]) && Reaches(prog, io, d3, d, [])
    ensures Reaches(prog, io, c, d, [low, high])
  {
    hide Reaches;
    ReachesThen(prog, io, c, d2, d3, [low], [high]);
    ReachesThen(prog, io, c, d3, d, [low] + [high], []);
    assert [low] + [high] + [] == [low, high];
  }

  lemma FromStart(prog: Program, io: Stimulus, c: Config, d1: Config, d: Config, low: Byte, high: Byte)
    requires Reaches(prog, io, c, d1, []) && Reaches(prog, io, d1, d, [low, high])
    ensures Reaches(prog, io, c, d, [low, high])
  {
    hide Reaches;
    ReachesThen(prog, io, c, d1, d, [], [low, high]);
    assert [] + [low, high] == [low, high];
  }
}
