# Cycle-exact sequencer: models and proofs

The repository holds a small sequencer CPU (16-bit words, four byte registers, 21 opcodes)
and the environment that verifies it: a golden model, random program generators, a boot and
byte-transfer protocol with a host, firmware idioms, a CAN receiver, an assembler, and the
scripts that minimise failures and run the verification cycle. This project models the
logic of that environment and proves what it is relied on for.

How the parts hang together:

- `Bits`, `Isa`, `Machine`, `Sequencer`, `Runs`: the instruction words, one instruction as a
  function of the state and the pins over time, the same instruction as the source's
  in-place update (`SequencerState`), and whole runs as paths of executed addresses.
  `DataLaws` says of every instruction what it does to bits, bytes and pins, without naming
  the function that does it. Pins
  are an arbitrary function of time throughout, random draws are arbitrary values in their
  range.
- `Structured`, `Emission`, `LeafWords`, `NestedFlow`: structured code (leaves, forward
  branches, calls, counted loops), its flat placement, and the theorem that from any item
  the machine leaves the sequence having kept every live loop counter, within the static
  sum of any weighting of addresses. The nested-flow generator is a method whose contract
  is the generator's claim: for every draw and all pin activity the program halts within
  15000 cycles with both sticky flags clear.
- `Layouts`, `RandomGen`, `RandomRuns`, `BurstRuns`, `ExecBounds`, `IllegalMix`, `WideTiming`:
  the flat random generator with its two bursts and what the transmit burst puts on its pin,
  execution counts, and the two profiles that rewrite words in place.
- `CycleCpu`, `BootChip`, `HostLoad`, `Firmware`, `Handshake`, `EchoTest`: clock-by-clock
  models, proved to refine the instruction-level one, of the chip and its synchronizer flops
  on one side of the pins and the host's operations, with any latency, on the other; and the
  two joined, from reset over the booted memory to the last echoed byte.
- `Crc8`, `FirmwareRuns`, `CrcFirmware`, `SumFirmware`: firmware idioms as machine code.
- `Crc15`, `CanStuffing`, `CanFrame`, `CanBus`, `CanFaults`: CRC, bit stuffing, frames and the
  receiver of Bosch CAN 2.0 Part A, sections 3.1.1 and 5, and exactly which faults it records
  on any bus. `CrcPolynomials`: both CRCs as remainders of polynomial division.
- `EncodeCycles`, `AsmSource`, `Assembler`, `SourceLaws`, `TextForms`: the assembler, what each
  source line makes the machine do, and the text formats.
- `Triage`, `Orchestrate`, `I2cWaves`: ddmin and bisection, the cycle state machine, and the
  I2C stimulus (NXP UM10204, sections 3.1.3 and 3.1.4).

Where a class stands for a source object, each method's `ensures` equates the new state with
a specification function of the old one, and the lemmas are about that function.

## What the proofs found

- The loader accepts 1 to 1024 bytes, but its echo check expects the byte count modulo 256
  while the chip's counter saturates. Images of 1 to 1023 bytes load; an image of 1024 bytes
  is written completely and then refused by the last check (`HostLoad.Rig.Load`, by
  `HostLoad.EchoMatches`). An assembled image has 1024 bytes exactly when its data region is
  full (`Assembler.ImageHolds`).
- The superseded firmware-initiated OUT order deadlocks exactly when no clock edge sees
  HOST_GO low between two transfers (`Handshake.OldOrderExact`).
- The assembler's "rounds to 0" error can never be raised (`Assembler.NeverRefusedAsZero`).
- In the cycle script, a failing signoff never gets past its first triage ticket: completing
  it always halts the cycle, so at most one ticket is issued per cycle and neither the
  remaining failing seeds, nor the deferred halt, nor the way from triage to red team is ever
  reached (`Orchestrate.TriageAlwaysHalts`, `Orchestrate.EveryCycleSafe`). The header of the
  script promises one ticket per failing seed: that holds exactly if one seed failed
  (`Orchestrate.TicketsExactly`, and with two failing seeds `Orchestrate.SecondSeedNeverHeard`).
- A host wait compares the clock after reading the pin, so a host that pauses between the two
  for nearly its whole limit gives up although the chip has answered. With `slack` the longest
  such pause, no wait of the loader runs out exactly if `slack + 3 <= limit` clocks
  (`HostLoad.RiseGivenUp`, `HostLoad.FallGivenUp`), and none of a conversation exactly if
  `slack + 11 <= limit` (`Handshake.Bench.Converse`, `Handshake.SlowestWait`).
- START works exactly if one clock edge samples it high and two more pass; the driver's
  comment asks for four clocks (`BootChip.LoadLeftExactly`).
- The firmware idioms never present a wrong byte, whatever the host does, and halt exactly if
  the host answers the waits they come to (`CrcFirmware.BitwiseComputesCrc`,
  `CrcFirmware.TableComputesCrc`, `SumFirmware.SumComputed`).
- The empty-body fallback of the nested-flow generator and its three final assertions are
  never reached (`NestedFlow.Gen.LoopItem`, `NestedFlow.Gen.Sub`, `NestedFlow.GenerateProgram`).
- In the random generator every last block drawn as a branch becomes a leaf, not only a
  single block (`RandomGen.Decide`). Headers that speak of 19 opcodes are older than the code,
  which has 21; `classify` leaves XOR and ADD out, though they are leaf words.

## Model

| member | source | states |
|---|---|---|
| Isa.DecodeEncode | test/isa_asm.py:55-182 | decoding an encoded instruction gives its operands cut to their fields, and the very operands if they fit |
| Isa.EncodeInjective | test/isa_asm.py:55-182 | two different in-range instructions never share a word |
| Isa.OpcodeNumbers | test/isa_asm.py:14-34 | each opcode by its number in the top five bits |
| Isa.OperandBits | test/golden_model.py:86-107 | each operand by the bits it is read from |
| Machine.WaitFrom | test/golden_model.py:203-229 | the least extra cycle at which a WAIT stops, or none up to the hard cap |
| Sequencer.SequencerState.constructor | test/golden_model.py:60-83 | a new state object is the reset state |
| Sequencer.SequencerState.WaitFor | test/golden_model.py:215-229 | the polling loop returns the least satisfying cycle, or reports that the cap passed |
| Sequencer.SequencerState.Step | test/golden_model.py:110-284 | the in-place update of the state object is the step function, result and cycle cost; a stuck WAIT changes nothing |
| DataLaws.OutBitLaw | test/golden_model.py:234-237 | OUTB puts bit 7 or bit 0 of the register on its pin and moves nothing else |
| DataLaws.InBitLaw | test/golden_model.py:239-248 | INB replaces one end bit by the sampled pin and keeps the other seven |
| DataLaws.InThenOut | test/golden_model.py:234-248 | INB then OUTB at one end drives the level that was sampled |
| DataLaws.SetLaw | test/golden_model.py:178-182 | SET drives the pin, and changes its mode exactly if it is not LEAVE |
| DataLaws.StoreThenLoad | test/golden_model.py:250-254 | a byte stored is loaded back at its offset, every other offset is as before |
| DataLaws.ShiftLaw | test/golden_model.py:192-197 | SHIFT moves every bit one place and fills with zero |
| DataLaws.ShiftBack | test/golden_model.py:192-197 | left and right again clears bit 7 alone, right and left again bit 0 alone |
| DataLaws.XorLaw | test/golden_model.py:269-270 | XOR adds bit by bit |
| DataLaws.AddLaw | test/golden_model.py:272-275 | ADD's flag is the ninth bit of the sum |
| DataLaws.LoopLaw | test/golden_model.py:256-261 | LOOP counts down modulo 256 and goes back unless it reached zero |
| DataLaws.BranchLaws | test/golden_model.py:149-173 | JMP goes, BEQ if the flag is set, BNE if it is clear; HALT stays |
| DataLaws.CallThenReturn | test/golden_model.py:153-173 | RET after CALL comes back to the next address with nothing else changed |
| DataLaws.DelayLaw | test/golden_model.py:199-201 | DELAY takes mantissa times 32 to the exponent extra cycles |
| DataLaws.WaitOutcome | test/golden_model.py:203-229 | WAIT ends at the first cycle with the level or at its limit, the flag tells a timeout, and it is stuck only past the cap |
| Runs.WaitExact | test/golden_model.py:203-229 | WAIT takes the least number of cycles after which pin matches or time is up, a match wins a tie, a timed WAIT never meets the cap |
| Runs.PathValid | test/golden_model.py:110-284 | over any run registers stay bytes and the program counter stays below 512 |
| Runs.PathPrefix | test/golden_model.py:110-284 | the machine is deterministic: any run from the same start is an initial part of the halting one |
| Runs.IllegalFlagExact | test/golden_model.py:277-278 | over any run the illegal flag is set exactly if it was set before or a word of opcode 21 to 31 was executed |
| Runs.MisuseFlagExact | test/golden_model.py:153-173 | over any run the misuse flag stays clear exactly if the executed CALLs and RETs alternate |
| Runs.PathCost | test/stim/profile_nested_flow.py:74-81 | a run over timed words takes at most the sum of their static costs |
| Structured.RunSequence | test/stim/profile_nested_flow.py:127-203 | from any item of placed structured code the machine leaves the sequence at its end or by break, keeps every live counter and the pending-return state, within the static sum of any weight |
| Structured.RunToHalt | test/stim/profile_nested_flow.py:228-252 | from reset such code followed by HALT halts, without misuse, within its static weight |
| LeafWords.GenLeafWord | test/random_gen.py:120-185 | a leaf word is defined, falls through, cannot wait for ever and spares the protected register |
| Emission.EmitPlaced | test/stim/profile_nested_flow.py:179-203 | the label-emitting compiler puts every item where its structure says: branches to later siblings, the enclosing LOOP or just past it |
| Emission.EmitSeqUnique | test/stim/profile_nested_flow.py:112-114 | no emitted label occurs twice |
| Emission.DictionaryAgrees | test/stim/profile_nested_flow.py:245-249 | with unique labels the dictionary gives every entry its own address |
| NestedFlow.Gen.LeafWordFor | test/stim/profile_nested_flow.py:84-102 | rejection sampling yields a word within the extra cycles that writes no forbidden register, NOP if need be |
| NestedFlow.Gen.FlagSetter | test/stim/profile_nested_flow.py:116-125 | a flag setter writes no register and costs at most max(5, 3 + extra) |
| NestedFlow.Gen.Seq | test/stim/profile_nested_flow.py:127-177 | cost and words returned are those of the items, within budget and room, and there are as many items as asked for unless cycles or words ran out; the recursion ends |
| NestedFlow.Gen.LoopItem | test/stim/profile_nested_flow.py:142-159 | a loop stays within its share of the budget and its body is never empty |
| NestedFlow.Gen.Emit | test/stim/profile_nested_flow.py:179-203 | the list-appending emitter writes exactly the emission function of a tree whose branch targets are later siblings but one, the continuation or the break |
| NestedFlow.Gen.EmitNode | test/stim/profile_nested_flow.py:181-203 | the same for one item, with its labels |
| NestedFlow.Gen.Sub | test/stim/profile_nested_flow.py:206-225 | the subroutine writes only the fourth register, holds at most one branch, to its own RET, and costs at most 90 cycles with CALL and RET |
| NestedFlow.WeightWithinCost | test/stim/profile_nested_flow.py:127-177 | the weight of the flat code is at most the cost charged for the tree |
| NestedFlow.ListingUnique | test/stim/profile_nested_flow.py:239-248 | no label occurs twice in the listing of main part, HALT and subroutine |
| NestedFlow.ListingPlaced | test/stim/profile_nested_flow.py:239-249 | the resolved listing is the placed plan |
| NestedFlow.PlanHalts | test/stim/profile_nested_flow.py:228-252 | for all pins and start cycles the placed plan halts within cost + 3 with both flags clear |
| NestedFlow.GenerateProgram | test/stim/profile_nested_flow.py:228-252 | for every draw the program is a complete plan laid out: twenty to forty-five items unless budget or memory ran out, loop bodies of one to six, HALT, and the subroutine exactly if it is called; it fits the memory and, for all pins, halts from reset within 15000 cycles with both flags clear |
| NestedFlow.EveryRunIsClean | test/stim/profile_nested_flow.py:228-252 | at any point of any run both flags are clear and the limit is not passed |
| NestedFlow.DefaultsFit | test/random_gen.py:84-89 | the default mantissa caps fit the fields, so the generators' promises hold of them |
| Layouts.LayoutHalts | test/random_gen.py:188-294 | a laid-out program halts under all pin activity without misuse, within the static sum of any weight |
| Layouts.RewrittenLaid | test/stim/profile_illegal_mix.py:101-127 | replacing fall-through words that seed no loop by words that write no register keeps the whole structure |
| Layouts.HaltIsFirst | test/stim/profile_illegal_mix.py:79-79 | no word before the layout's HALT is a HALT |
| Layouts.FindHalt | test/stim/profile_wide_timing.py:93-93 | the scan returns the first HALT |
| Layouts.HaltFound | test/stim/profile_wide_timing.py:120-120 | the first HALT is the end of the main part |
| RandomGen.Decide | test/random_gen.py:212-251 | every branch leads to a later block, loops and bursts stay within their limits, for any limits |
| RandomGen.DriveBurst | test/seq/cov_closure_outb_drive.py:40-61 | the transmit burst is the block of some pin, byte, bit count, order and delay, its counter spared |
| BurstRuns.BurstLies | test/random_gen.py:253-281 | assembled, the block is the burst's eight instructions |
| BurstRuns.BurstDrives | test/seq/cov_closure_outb_drive.py:40-61 | wherever it runs, the burst raises its pin, drives the bits of the byte in order from the chosen end, each for one bit period, and raises it again; no other pin moves |
| RandomGen.RetryBurst | test/seq/cov_closure_wait_tie.py:54-68 | the poll burst is a counted loop around a WAIT of one to three cycles with one way out, and then samples the same pin |
| RandomGen.ExpandAll | test/random_gen.py:253-281 | pass 2 writes exactly the listing of the decided blocks |
| RandomGen.ListingUnique | test/isa_asm.py:195-201 | no label is defined twice, so assembling never refuses |
| RandomGen.ListingLaid | test/random_gen.py:253-292 | the assembled listing is a laid-out structured program |
| RandomGen.GenerateProgram | test/random_gen.py:188-294 | for every draw and all block, loop and call limits whose worst case fits the memory: as many blocks as the limits ask for lie before HALT, a subroutine exactly if one calls it, the size assertion holds, opcodes are defined, the program is laid out with flat loops and a leaf-only subroutine |
| RandomRuns.ProgramHalts | test/random_gen.py:188-294 | under any pins such a program halts from reset with both flags clear, so never returns through an unset return address |
| RandomRuns.PastHaltOnlyByCall | test/random_gen.py:283-290 | an executed address past HALT follows another such address or an executed CALL word |
| ExecBounds.ComputeBounds | test/stim/profile_wide_timing.py:90-109 | the array-filling loops compute the bound function |
| ExecBounds.BoundIsSound | test/stim/profile_wide_timing.py:90-109 | at any point of any run a word that is no LOOP has executed at most its bound |
| ExecBounds.BoundIsTight | test/stim/profile_wide_timing.py:90-109 | a word of the main part is bounded by the largest count of a loop around it, and by one outside every loop |
| ExecBounds.NeverOutside | test/random_gen.py:283-294 | no run leaves the program, nor enters the subroutine region unless the program calls |
| IllegalMix.Classify | test/stim/profile_illegal_mix.py:77-98 | the three lists hold exactly the eligible addresses of their regions |
| IllegalMix.Choose | test/stim/profile_illegal_mix.py:106-121 | at most the cap is chosen, only eligible addresses, the first from the early third of the main part, then one of each region that has any, as far as the cap goes |
| IllegalMix.EligibleReplaceable | test/stim/profile_illegal_mix.py:77-98 | what the profile's test of the words lets through is a fall-through word that seeds no loop |
| IllegalMix.MixLaid | test/stim/profile_illegal_mix.py:101-127 | the rewritten program has the structure of the original |
| IllegalMix.GenerateProgram | test/stim/profile_illegal_mix.py:101-127 | the program is laid out, its reserved opcodes are exactly at the chosen addresses, and these are chosen so |
| IllegalMix.MixHalts | test/stim/profile_illegal_mix.py:101-127 | it halts under all pin activity without misuse |
| IllegalMix.FlagTellsExecution | test/stim/profile_illegal_mix.py:123-127 | at any point of any run the illegal flag is set exactly if a chosen word was executed |
| WideTiming.GenerateProgram | test/stim/profile_wide_timing.py:112-160 | only timing words change, WAITs keep pin and level, the structure stays, over all changed words that are now DELAYs the held cycles times the execution bound sum to at most the budget; some WAIT gets a long timeout if there is one or a NOP to spare, and some DELAY a coarse unit if the budget pays for it |
| WideTiming.WideLaid | test/stim/profile_wide_timing.py:112-160 | the rewritten program keeps the structure |
| WideTiming.WideHalts | test/stim/profile_wide_timing.py:112-160 | it halts from reset under all pin activity with both flags clear |
| WideTiming.WideWithinBudget | test/stim/profile_wide_timing.py:118-145 | at any point of any run the cycles held by every executed DELAY that the random program did not have there sum to at most max(0, MAX_CYCLES - reserve) |
| CycleCpu.ExtraExact | test/golden_model.py:199-229 | execution is held for exactly the extra cycles of the instruction-level model |
| CycleCpu.StepRefines | test/golden_model.py:110-131 | the clock-by-clock machine does one instruction in exactly the cycles the golden model charges |
| Firmware.FirmwareSimulates | test/test_host_loader.py:31-43 | the firmware automaton is what the clock-by-clock machine does on any program memory that begins with the compiled words |
| BootChip.RisePulse | formal/agent_core_boot_props.v:99-150 | a HOST_GO rise is acknowledged after exactly four clocks, with the byte stored once and the counter stepped |
| BootChip.FallPulse | formal/agent_core_boot_props.v:137-149 | the acknowledge falls exactly four clocks after HOST_GO, and the chip is ready for the next rise |
| BootChip.StartRise | src/io/pin_ctrl.v:136-137 | two clocks of START high reach the edge detector, memory unchanged |
| BootChip.LoadLeftExactly | src/io/pin_ctrl.v:97-139 | with HOST_GO low a settled chip has left LOAD if and only if some clock edge sampled START high and two more have passed, memory unchanged |
| BootChip.StartFall | formal/agent_core_boot_props.v:137-139 | then the chip has left LOAD with its memory unchanged |
| BootChip.EveryHistoryCoherent | formal/agent_core_boot_props.v:99-150 | for every sequence of pin levels writes go to ascending addresses, each once, none past 1023, and the echo tells the byte count |
| BootChip.ResetCoherent | formal/agent_core_boot_props.v:111-124 | reset starts such a history |
| HostLoad.Rig.constructor | firmware/host/pe_host.py:149-157 | any chip, pins, limit and slack make a rig |
| HostLoad.Rig.WaitStatus | firmware/host/pe_host.py:193-198 | the wait ends with the awaited level, or past the limit, at most `slack` clocks after a reading of the other level |
| HostLoad.Rig.LoadByte | firmware/host/pe_host.py:60-68 | one byte: loaded and the chip settled again below 1024, refused by the echo check at 1024; no timeout if slack + 3 <= limit |
| HostLoad.Rig.Load | firmware/host/pe_host.py:52-75 | for every image and any host latency, the exact outcome: each byte written once at its own index, the rest of memory kept, LOAD left; lengths 0 and over 1024 refused untouched; 1024 written in full and refused; no timeout if slack + 3 <= limit |
| HostLoad.RiseGivenUp | firmware/host/pe_host.py:193-198 | the wait for a byte's acknowledge can be given up if and only if slack + 3 > limit |
| HostLoad.FallGivenUp | firmware/host/pe_host.py:193-198 | and so can the wait for its release |
| Handshake.RiseServed | docs/architecture.md:451-502 | a request is served in an exact number of clocks wherever the firmware is, with the byte the host holds or R0 |
| Handshake.FallServed | docs/architecture.md:484-502 | the firmware's status fall is the last edge, after an exact number of clocks, and leaves it ready for the next request |
| Handshake.Bench.constructor | test/test_host_loader.py:31-43 | the machine out of reset on a program memory that begins with the compiled firmware |
| Handshake.Bench.Exchange | firmware/host/pe_host.py:78-94 | one transfer, at any latency and with no gap before it, steps the conversation once; no timeout if slack + 11 <= limit |
| Handshake.Bench.Send | firmware/host/pe_host.py:78-84 | one byte is captured by the firmware; no timeout if slack + 11 <= limit |
| Handshake.Bench.Converse | firmware/host/pe_host.py:78-94 | every sequence of transfers completes with the replies of its meaning, at any latency with slack + 11 <= limit |
| Handshake.SlowestWait | firmware/host/pe_host.py:193-198 | after two transfers without a lost clock a wait can be given up if and only if slack + 11 > limit |
| Handshake.EchoesInOrder | test/test_host_loader.py:31-43 | sent and received alternately, every byte comes back once and in order |
| EchoTest.BootedProgram | firmware/isa/asm.py:86-92 | the memory after booting an assembled image holds the assembled words and data, whatever it held before |
| EchoTest.BootAndEcho | test/test_host_loader.py:117-127 | from any chip: boot the assembled echo firmware, then every byte sent comes back once and in order; no timeout if slack + 11 <= limit |
| Handshake.OldOrderExact | docs/architecture.md:484-495 | the old order resumes exactly when some clock edge saw HOST_GO low |
| Handshake.OldDeadlockReachable | docs/architecture.md:489-495 | from its start the old order reaches a state in which both sides wait for ever |
| Crc8.ComputeCrc8 | spec_tests/spec_helpers.py:238-246 | the reference loops compute the CRC function |
| Crc8.TableAbsorbs | spec_tests/spec_helpers.py:249-250 | one table lookup absorbs a byte |
| Crc8.TentativeXor | spec_tests/test_spec_conformance.py:1991-1996 | shift, add, undo if the bit was clear: one CRC bit |
| FirmwareRuns.PlainStep | test/golden_model.py:175-284 | what a data, LOOP or BRANCH word does to registers, flag and program counter |
| FirmwareRuns.SendStep | spec_tests/spec_helpers.py:256-263 | with the waits it comes to answered, the five handshake words present the register once and change nothing else |
| FirmwareRuns.HaltsOnlyAttended | test/golden_model.py:203-229 | a program that halts had each of its waits for the host answered within the cap |
| FirmwareRuns.SomeHostAttends | test/golden_model.py:203-229 | whatever a host did up to some point of a run, a host that answers every later wait could have done |
| CrcFirmware.BuildBitwise | spec_tests/test_spec_conformance.py:1982-2000 | the append loop builds the bitwise program, within 256 words |
| CrcFirmware.BitwiseHalts | spec_tests/test_spec_conformance.py:1982-2005 | if the host answers the waits the run comes to, the bitwise program halts having presented the running CRC after every byte, from any registers |
| CrcFirmware.BitwiseComputesCrc | spec_tests/test_spec_conformance.py:1982-2005 | for every host: what is presented at any point is an initial part of the running CRCs, all of them at HALT, and it halts if and only if its waits are answered |
| CrcFirmware.TableHalts | spec_tests/test_spec_conformance.py:2020-2032 | so does the table-driven program, with the table in data memory |
| CrcFirmware.TableComputesCrc | spec_tests/test_spec_conformance.py:2020-2032 | for every host, the same three statements of the table-driven program |
| CrcFirmware.OneOutput | test/golden_model.py:110-284 | a halting run has one output |
| CrcFirmware.ProgramsAgree | spec_tests/test_spec_conformance.py:1982-2032 | for any two hosts: what the two programs have presented agrees as far as both go, and is the same once both have halted |
| SumFirmware.BuildSum | spec_tests/test_spec_conformance.py:1923-1935 | the append loop builds the sum program, within 256 words |
| SumFirmware.SumHalts | spec_tests/test_spec_conformance.py:1914-1938 | for every message the program halts, its waits answered, having presented low and high byte of the 16-bit sum |
| SumFirmware.SumComputed | spec_tests/test_spec_conformance.py:1914-1938 | for every host: what is presented at any point is an initial part of these two bytes, both at HALT, and it halts if and only if its waits are answered |
| Crc15.ComputeCrc | test/test_can.py:41-48 | the shift-register loop computes the CRC function |
| CrcPolynomials.CanRemainder | test/test_can.py:41-48 | the CRC is the one register value that makes message and CRC together divisible by the CAN generator polynomial |
| CrcPolynomials.Crc8Remainder | spec_tests/spec_helpers.py:238-246 | and the CRC-8 the one for x^8 + x^2 + x + 1 |
| Crc15.CrcLinear | test/test_can.py:41-48 | the CRC of the sum of equally long messages is the sum of the CRCs |
| Crc15.CrcRemainder | test/test_can.py:41-59 | appending the CRC leaves remainder zero |
| Crc15.BurstDetected | test/test_can.py:41-48 | equally long messages that differ only inside 15 consecutive bits have different CRCs |
| CanStuffing.StuffBits | test/test_can.py:62-71 | the stuffing loop computes the stuffing function |
| CanStuffing.NeverSixEqual | test/test_can.py:62-71 | no six consecutive bits of a stuffed sequence are equal |
| CanStuffing.StuffLength | test/test_can.py:62-71 | at most one bit is stuffed per four after the first |
| CanStuffing.StuffLengthTight | test/test_can.py:62-71 | that bound is reached |
| CanFrame.BuildFrame | test/test_can.py:51-59 | the appends build the frame function |
| CanFrame.FrameFields | test/test_can.py:51-59 | length, identifier, data and CRC read back from every built frame |
| CanFrame.FrameControl | test/test_can.py:51-59 | the start of frame and the three control bits are dominant |
| CanFrame.LengthField | test/test_can.py:155-157 | the length of a frame from its header bits, eight data bytes at the most |
| CanFrame.ScanOfStuffed | test/test_can.py:137-157 | destuffing any prefix of a stuffed frame and what follows stops at the right bit with the frame's bits |
| CanFrame.ScanIsExact | test/test_can.py:137-161 | what destuffs to a complete frame is the stuffing of that frame |
| CanFrame.ScanStopsAtNeed | test/test_can.py:149-158 | no bit beyond the frame's length is taken |
| CanBus.Bus.constructor | test/test_can.py:75-91 | a new receiver is idle with empty records |
| CanBus.Bus.Tick | test/test_can.py:110-122 | one turn of the bus process is the cycle function |
| CanBus.Bus.Receive | test/test_can.py:124-135 | synchronising, idle counting and sampling |
| CanBus.Bus.Decode | test/test_can.py:137-180 | the re-decode after every bit is the decode function |
| CanBus.Bus.Conclude | test/test_can.py:162-180 | delimiter, acknowledgement and end-of-frame handling |
| CanBus.Bus.End | test/test_can.py:182-185 | the end of a frame resets the receiver and records an error if there is one |
| CanBus.FrameDelivered | test/test_can.py:124-185 | every identifier and up to eight bytes, sent cycle by cycle, are recorded once, without error, acknowledged in exactly the bit after the delimiter |
| CanBus.OnlyStuffedFrames | test/test_can.py:137-180 | on any bus a recorded frame was read from its exact stuffing, and only a matching CRC is acknowledged |
| CanFaults.BrokenExactly | test/test_can.py:137-148 | a stuff fault is found exactly where the first six equal raw bits end, unless the frame has ended before |
| CanFaults.DecodeReads | test/test_can.py:162-180 | what the receiver does at every bit after a frame: the CRC judged at the first, the rest and the record at the tenth |
| CanFaults.FaultsExactly | test/test_can.py:137-180 | on any bus, at every sample, a fault is recorded if and only if the raw bits deserve it, once |
| CanFaults.ReceptionExactly | test/test_can.py:137-185 | every frame, with any fields, CRC and tail: the record, the faults and the acknowledgement it leaves |
| CanFaults.CorruptionSeen | test/test_can.py:164-170 | a sent frame with at most fifteen consecutive wrong bits is never acknowledged and never recorded without its CRC fault |
| CanFaults.SyncExactly | test/test_can.py:124-133 | a dominant cycle starts a frame exactly if eleven recessive bit times came before |
| EncodeCycles.Encode | firmware/isa/asm.py:122-135 | the loop over exponents computes the nearest encoding, negative counts are refused |
| EncodeCycles.NearestIsOptimal | firmware/isa/asm.py:122-135 | no encoding is closer, and of equally close ones it has the smallest exponent |
| EncodeCycles.NeverRoundsToZero | firmware/isa/asm.py:319-321 | a positive count never gets mantissa 0 |
| EncodeCycles.RelativeError | firmware/isa/asm.py:122-135 | within reach DELAY errs by at most 1/33 and WAIT by at most 1/3, both reached |
| AsmSource.EvalMonotone | firmware/isa/asm.py:100-119 | a value does not change when more names become known |
| AsmSource.StackIsMeaning | firmware/isa/asm.py:161-226 | the `.if` stack computes the meaning of the nested blocks, errors included |
| AsmSource.BlocksExactly | firmware/isa/asm.py:161-176 | a source is a nesting of blocks if and only if its directives are balanced and every `.if` has an expression |
| AsmSource.AcceptedExactly | firmware/isa/asm.py:155-228 | the first pass accepts a source if and only if it is a nesting of blocks that has a meaning within 256 words, and its result is that meaning |
| Assembler.AddressesCount | firmware/isa/asm.py:162-224 | kept instructions are numbered in order, labels count the kept instructions before them |
| Assembler.NamesDisjoint | firmware/isa/asm.py:186-212 | no name is both label and constant |
| Assembler.ConstantsKeep | firmware/isa/asm.py:162-236 | what an expression means at any point of the first pass it means in the second: no later constant or label changes it |
| Assembler.CheckedFits | firmware/isa/asm.py:260-350 | the operands of an accepted line fit their fields: no mask cuts one |
| Assembler.NeverRefusedAsZero | firmware/isa/asm.py:320-321 | the refusal of a timeout that rounds to 0 is never given |
| Assembler.Assemble | firmware/isa/asm.py:149-367 | accepted sources give words that decode to the checked lines; refusals name the failing pass |
| Assembler.RunFirstPass | firmware/isa/asm.py:155-228 | the loop over lines computes the first pass |
| Assembler.RunSecondPass | firmware/isa/asm.py:260-351 | the encoding loop gives words that decode to the checked operations, or the first fault |
| Assembler.RunData | firmware/isa/asm.py:353-366 | the data loop computes the data bytes or the first fault |
| Assembler.WordsRunTheSource | firmware/isa/asm.py:149-367 | at every address the machine executes the operation of the kept line numbered there, branches land where labels count |
| SourceLaws.SourceDone | firmware/isa/asm.py:260-351 | by mnemonic, what the machine does at every address, in terms of the line's own operands, the labels and the state |
| SourceLaws.LegalExactly | firmware/isa/asm.py:260-351 | a line is accepted if and only if it has the operands its mnemonic takes |
| SourceLaws.ApplyLaws | firmware/isa/asm.py:95-119 | subtraction undoes addition, division leaves a remainder of the divisor's sign, a right shift undoes a left one |
| SourceLaws.BytesExactly | firmware/isa/asm.py:358-364 | `.byte` is accepted exactly if each value fits a byte, and gives them in order |
| SourceLaws.DataConcat | firmware/isa/asm.py:353-366 | the data region is the items one after another |
| SourceLaws.CommandLineWins | firmware/isa/asm.py:202-208 | what the command line defines the source cannot change |
| Assembler.ImageHolds | firmware/isa/asm.py:86-92 | program at 0 low byte first, data at 512, and 1024 bytes exactly if the data region is full |
| TextForms.ImageTextRoundTrip | firmware/host/pe_host.py:97-99 | the host reads back the bytes of the assembler's one-byte-per-line text |
| TextForms.LineRoundTrip | test/test_random.py:148-154 | a listing line gives its word whatever address and remark it carries |
| TextForms.ListingRoundTrip | test/random_gen.py:354-367 | a whole listing under a comment reads back as the same words |
| Triage.NonNops | scripts/triage.py:175-176 | the starting set holds exactly the indices of the non-NOP words |
| Triage.TrySubsets | scripts/triage.py:182-185 | a reduction to one chunk still fails |
| Triage.TryComplements | scripts/triage.py:186-191 | a reduction by one chunk still fails; if none does with chunks of one, no single item can go |
| Triage.Minimize | scripts/triage.py:162-199 | ddmin ends, its result still fails with the same signature, and with two or more items left no single one can be removed |
| Triage.ChunkBounds | scripts/triage.py:178-195 | a chunk is a proper part and as many chunks as items are chunks of one |
| Triage.Bisect | scripts/triage.py:253-260 | the commit found fails and the one before it passes |
| Orchestrate.Cycle.constructor | scripts/orchestrate.py:334-337 | a new cycle is the start state |
| Orchestrate.Cycle.HaltCycle | scripts/orchestrate.py:89-93 | halting keeps everything but the stage and writes a record |
| Orchestrate.Cycle.RunSignoff | scripts/orchestrate.py:118-155 | the signoff stage |
| Orchestrate.Cycle.Dispatch | scripts/orchestrate.py:186-207 | the next ticket, or a halt when the budget is used up |
| Orchestrate.Cycle.Step | scripts/orchestrate.py:210-233 | the stepping loop is the stepping function, and ends |
| Orchestrate.Cycle.Complete | scripts/orchestrate.py:280-308 | completing a ticket; an unknown or finished one is refused unchanged |
| Orchestrate.StartSafe | scripts/orchestrate.py:323-340 | a new cycle is safe |
| Orchestrate.EveryCycleSafe | scripts/orchestrate.py:186-320 | over every sequence of commands: budget and tickets add up, one ticket at most, waited on exactly while dispatched, red team only after a clean signoff, exactly one record at the end, closed only when clean |
| Orchestrate.CycleOutcome | scripts/orchestrate.py:118-308 | the whole state after any cycle that begins with a step: it depends on the first report and the first completion of ticket 1 alone |
| Orchestrate.DoneExactly | scripts/orchestrate.py:118-308 | a cycle closes if and only if signoff passed and, with the red team on, its ticket was allowed and came back accepted with nothing found; it waits exactly on an unanswered ticket, and halts otherwise, with one record |
| Orchestrate.EndIsFinal | scripts/orchestrate.py:210-211 | a halted or finished cycle stays as it is |
| Orchestrate.TriageAlwaysHalts | scripts/orchestrate.py:299-304 | the triage stage is left only by halting |
| Orchestrate.TicketsExactly | scripts/orchestrate.py:9-11 | in every cycle that goes on by steps and completions, the tickets are those of the failing seeds if and only if one seed failed and the budget allows a ticket; a failing seed gets one exactly if it is the first |
| Orchestrate.SecondSeedNeverHeard | scripts/orchestrate.py:9-11 | with two failing seeds the second never gets a ticket |
| I2cWaves.Wave.Hold | test/stim/profile_protocol_pins.py:85-88 | a hold appends at least one level, cut to the room left |
| I2cWaves.Transfer | test/stim/profile_protocol_pins.py:153-167 | START, one to three bytes of nine clocks, STOP, and the bus is idle again |
| I2cWaves.I2cBus | test/stim/profile_protocol_pins.py:143-168 | both lines have the asked length and obey the bus rules throughout |
| I2cWaves.EventsAlternate | test/stim/profile_protocol_pins.py:143-168 | two consecutive START/STOP events alternate, and a complete transfer has 9j + 1 SCL rises |

## Left out

- The RTL: only the boot registers of the formal ghost model, the two synchronizer flops and the edge detectors are modelled; fetch, memory macro and pin multiplexing are not.
- The `NotImplementedError` path of `step` when no pin function is given: pins are always given here. The unreachable `IllegalOpcode` is not modelled.
- Random numbers are arbitrary values of their range and `uniform`, log-uniform and probability draws are ranges of integers, so nothing is said about distributions, nor that every value in the range is ever drawn; shuffles and sorts are arbitrary orders.
- RandomGen.GenerateProgram: limits whose worst case does not fit 256 words, for which the source's own assertion may stop the generator; the profiles use the default limits, which fit.
- CrcFirmware.BitwiseComputesCrc: messages of at most 18 bytes, and TableComputesCrc of at most 31, because longer programs do not fit the 256-word program region.
- SumFirmware.SumComputed: messages of at most 60 bytes, for the same reason.
- CanBus.FrameDelivered: is about a node that only listens and acknowledges; what it drives under a competing sender or a forced bit is in the drive function, but no theorem is about that; the faults it records are (`CanFaults.FaultsExactly`). The history of edges and the host side of the CAN test are not modelled, nor is the transmitter firmware.
- CanFaults.CorruptionSeen: is about corrupted frames of the length sent; a burst in the length field can announce another length, and such bits are read as a frame of that length.
- HostLoad.Rig.Load: the memory after LOAD is the boot image; what running firmware writes later is not part of the boot model.
- Handshake.Bench.Converse: says only that a host with `slack + 11 > limit` may time out, not in which conversation: one of at most two transfers bears more slack.
- EchoTest.BootAndEcho: starts the machine from its reset state when the load is over, the clocks in between being part of the host's latency; that the echo source assembles to these words is a condition on the image.
- WideTiming.WideWithinBudget: does not count a DELAY rewritten to the very word it replaces, which adds no cycles to the random program. The cost of widened WAITs depends on the pins and the source leaves it unbounded too.
- ExecBounds.BoundIsSound: is about words other than LOOP, because the source's bound covers a loop's body and not the LOOP word that closes it.
- The assembler starts from lines split into labels, mnemonic and operands: regular expressions, comment stripping, case folding, the listing text and the warnings are not modelled.
- TextForms: the disassembly column is any one-line text without a comment sign, because the reader skips it.
- The UART, SPI and slow-GPIO waveforms, the stimulus assembly around them, and the protocol device models.
- Files, subprocesses, git, JSON, prompts and the ledger of the scripts: their results are inputs of the modelled steps. `abort` and `status` of the cycle script are not modelled.
- Mutation, coverage, equivalence and signoff drivers.
