/** The whole way from reset to the last echoed byte: the host boots the assembled echo
    firmware over the pins, the machine runs what the chip's memory then holds, and the
    host sends bytes and gets them back. */
module EchoTest {
  import opened Bits
  import opened Machine
  import opened Runs
  import opened Assembler
  import opened Firmware
  import BootChip
  import opened HostLoad
  import opened Handshake

  /** The program the machine fetches from a memory of 1024 bytes. */
  function ProgramOf(mem: seq<Byte>): (prog: Program)
    requires |mem| == BootChip.SRAM
    ensures |prog| == 512
  {
    seq(512, k requires 0 <= k < 512 => WordAt(mem, k))
  }

  /** A booted image is the assembled program, whatever was in memory before. */
  lemma BootedProgram(a: Assembled, before: seq<Byte>)
    requires |a.words| <= 256 && |a.data| < DATA_BYTES && |before| == BootChip.SRAM
    ensures var image := Image(a);
            && |image| < BootChip.SRAM
            && ProgramOf(image + before[|image|..])[..|a.words|] == a.words
            && (a.data != [] ==> (image + before[|image|..])[DATA_BYTES..][..|a.data|] == a.data)
  {
    ImageHolds(a);
    hide Image;
    var image := Image(a);
    var mem := image + before[|image|..];
    forall k | 0 <= k < |a.words| ensures ProgramOf(mem)[k] == a.words[k] {
      assert WordAt(image, k) == a.words[k];
    }
    if a.data != [] {
      assert mem[DATA_BYTES..][..|a.data|] == image[DATA_BYTES..];
    }
  }

  /** Boot the echo firmware, with any data, and send any bytes: every one comes back, once
      and in order, at any host speed, on any chip. Only a host that may let its whole limit
      but eleven clocks pass between a reading and its look at the clock can time out. */
  method BootAndEcho(rig: Rig, a: Assembled, bytes: seq<Byte>, hold: nat) returns (ok: bool, replies: seq<Byte>)
    requires rig.Ready() && hold >= 2 && a.words == Words(ECHO) && |a.data| < DATA_BYTES
    modifies rig
    ensures ok ==> replies == bytes
    ensures !ok ==> rig.slack + 11 > rig.limit
  {
    EchoLoops();
    var image := Image(a);
    BootedProgram(a, rig.chip.boot.mem);
    ImageHolds(a);
    hide Image;
    var r := rig.Load(image, hold);
    if r != Loaded {
      return false, [];
    }
    var mem := rig.chip.boot.mem;
    var bench := new Bench(ECHO, ProgramOf(mem), mem[DATA_BYTES..], rig.limit, rig.slack, rig.pins.ui);
    ghost var w := bench.Wires();
    ghost var n := bench.Latency();
    RestStays(w, 0, bench.pins, n);
    w := bench.Wires();
    ghost var ui := bench.pins.ui;
    ok, replies := bench.Converse(SendReceive(bytes));
    EchoesInOrder(bytes, ui, w.fw.r0, w.fw.uo);
  }
}
