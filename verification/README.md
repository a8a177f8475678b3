# A verified model of the 6502 core and the BBC Model B machine

This project models the NMOS 6502 core (`mos6502/`) and the machine around it (`bbc/`): memory map, SHEILA stubs, ROM
banks, resets, snapshot and restore. It states what the two packages promise and proves it, for every state, every
program, every memory image and every behaviour of the host.

The layers, from the bottom up:

- **The bus** (`bus.dfy`). A memory is three functions: what a read returns, what a write leaves, which calls either makes
  to the host's hook. A step is a list of acts (reads, writes, taking a latch), and `Drive` runs such a list. During any
  bus cycle the host may move any signal line: an `Env` gives, for each value of the cycle counter, the signals delivered
  in the cycle that starts there. Between two steps it may do so by a `Host` move; that includes the moment after the
  last cycle of an NMI or RESET entry, when the latch has been cleared. So edges between any two bus cycles are covered.
- **The instruction set** (`isa.dfy`, `alu.dfy`). A table of 256 opcodes, one effective address for each addressing mode,
  the registers each instruction leaves, and the bus cycles it spends. `Step` puts these together.
- **The objects** (`cpu.dfy`, `trace.dfy`, `devices.dfy`, `mapped_memory.dfy`, `machine.dfy`, `disassembler.dfy`). Classes
  with the fields and the branches of the program. Each method is proved to change the state exactly as the functions
  above say: registers, lines, counter, memory, bus log and hook calls.
- **The numbers** (`manual.dfy`, `opcode_fields.dfy`, `arithmetic.dfy`, `entries.dfy`, `cycles.dfy`, `lines.dfy`,
  `layout.dfy`). The functions the objects are proved against, pinned from outside: each opcode byte, vector, flag, bus
  cycle, signal call and address range, in literal numbers and without the names the model uses for them.
- **The theorems** (all other files). Simple interpreter, timing, runs, edge conservation, hijack, nested stacks,
  arithmetic on numbers of any length, memory algebra, bus log, bisimulation. Those about the processor hold for every
  memory; those about the machine for the BBC's.

The host's two hooks are modelled as logs to which each call is appended. The illegal-opcode and the unmapped-access hook
do not call back into the machine; only an `Env` does, and only the five signal-line calls. Bytes are integers from 0 to
255 and words from 0 to 65535, and every wrap-around is written out; the cycle counter is a 64-bit unsigned integer. P is a
record of eight flags; `Status.FlagsRoundTrip` and `Status.ByteRoundTrip` tie it to the byte.

## Where the code and its documents differ

The model follows the code. Where a promise is false of it, a lemma says exactly when it holds.

- Decimal ADC takes N and V from the half-corrected sum, where requirement FR-016 asks for those of the binary sum.
  `Chains.DecimalSignIff` says for which operands they differ, `Chains.DecimalFlagsInPractice` gives two.
- `Restore` promises the execution of the original, but a pending RESET is neither captured nor kept, and the other lines
  are not captured. `Snapshots.RestorePromiseIff` says, over every run under every host, exactly when the promise holds;
  it leaves open only a difference in an IRQ line that is masked or behind a pending NMI, and there the answer depends on
  the program: `MaskedIrq` proves one program under which it shows and one under which it never does.
- `ColdReset` calls itself equivalent to a fresh machine. The memory is (`Machines.ColdMemoryIsFresh`); the machine is
  only when nothing was left in the registers, the counter and the lines (`Machines.ColdStartIsFreshIff`).
- `Run` drives the processor until its budget is spent. Its deadline wraps with the 64-bit counter; a wrapped one is
  already past, and the run does nothing (`Runs.RunSpendsBudgetIff`). A deadline among the last six values of the counter
  can be jumped over, and exactly those are not sure to be reached (`Endless.AlwaysReachedIff`).
- `bbc/doc.go` says that a dropped write to ROM fires the unmapped-access hook. It does not
  (`BbcLaws.RomWritesAreSilent`).
- `bbc/errors.go` says the first tick without an OS ROM returns an error; `Tick` returns a count only and runs.
- `Run` overshoots its budget by up to six cycles; RDY is looked at between instructions only; RESET keeps A, X, Y and the
  counter and lowers SP by three; `Machine.Reset` clears the bank latch.

## Model

| member | source | states |
|---|---|---|
| Interpreter.StepIsInterpreted | mos6502/cpu.go:219-237 | A step that executes an instruction leaves the registers and memory of an interpreter with one effective address, one operand access and no dummy cycles, whatever the host does |
| Interpreter.RunIsInterpreted | mos6502/cpu.go:219-237 | Over every run under any host, registers and memory are what the interpreter leaves after the same instructions and entries |
| Interpreter.QuietRunIsInterpreted | mos6502/cpu.go:219-237 | Undisturbed, n steps are n turns of the interpreter, BRK included |
| Manual.FirstGroup | mos6502/opcodes.go:27-226 | ORA, AND, EOR, ADC, STA, LDA, CMP and SBC at all their opcode bytes: operand address, result, flags, PC and memory in numbers |
| Manual.AddressesInNumbers | mos6502/addressing.go:51-147 | Every effective address in numbers: which index, and where it wraps |
| Manual.MemoryShifts | mos6502/rmw.go:11-92 | ASL, ROL, LSR, ROR, DEC and INC of memory: the byte written, C, N and Z |
| Manual.AccumulatorShifts | mos6502/instructions.go:289-323 | The same on A |
| Manual.IndexLoads | mos6502/instructions.go:26-36 | LDX and LDY at their ten opcode bytes |
| Manual.IndexCompares | mos6502/instructions.go:122-154 | CPX, CPY and BIT: C is unsigned at-least, Z equality, N the sign of the difference; BIT from the operand |
| Manual.IndexStores | mos6502/instructions.go:50-56 | STX and STY: the right register at the right address, no flag moved |
| Manual.Transfers | mos6502/instructions.go:62-163 | Transfers, counts and NOP, opcode by opcode |
| Manual.FlagInstructions | mos6502/instructions.go:73-79 | Each flag instruction moves its flag and no other |
| Manual.Branches | mos6502/instructions.go:171-194 | Each branch opcode tests its own bit of P, and goes two on or to its signed offset from there |
| Manual.Pushes | mos6502/instructions.go:200-209 | PHA and PHP: what lands where on page 1 |
| Manual.Pulls | mos6502/instructions.go:211-225 | PLA and PLP: from where, and what becomes of P |
| Manual.Jumps | mos6502/instructions.go:231-232 | JMP, with the pointer's second byte from the same page |
| Manual.Calls | mos6502/instructions.go:240-247 | JSR: two literal pushes, then the high byte of the target |
| Manual.Returns | mos6502/instructions.go:250-283 | RTS and RTI: which bytes make PC and P |
| Manual.Undocumented | mos6502/illegal.go:21-30 | The 105 other bytes, listed: one on, and nothing else |
| Manual.NotInTheManual | mos6502/opcodes.go:27-226 | Those are exactly the bytes with no instruction |
| OpcodeFields.TableIsDecoded | mos6502/opcodes.go:27-226 | The table of 256 handlers equals a decoder of the row, column and group bits |
| Interpreter.StepIsPerformed | mos6502/cpu.go:219-237 | Every step of any kind is one deed: waiting, one instruction, one service, a hijacked BRK, or a restart |
| Interpreter.RmwStores | mos6502/rmw.go:11-15 | The dummy write of a read-modify-write cannot be seen in the memory it leaves |
| Interpreter.JsrStores | mos6502/instructions.go:240-247 | JSR's five bus cycles store exactly the return address |
| Interpreter.EntryIsInterrupted | mos6502/interrupts.go:29-90 | An interrupt entry pushes PC and P, masks IRQs and jumps through the vector in force; RESET moves SP but stores nothing |
| Entries.ResetStep | mos6502/interrupts.go:29-90 | A pending RESET comes first: PC is the word at $FFFC, low byte first; SP falls by 3, nothing is stored, and the request is cleared |
| Entries.NmiStep | mos6502/interrupts.go:29-90 | Then an NMI, masked or not: PC from $FFFA, three bytes pushed at their addresses, and the latch is cleared |
| Entries.IrqStep | mos6502/interrupts.go:29-90 | Then an IRQ with I clear: PC from $FFFE, or from $FFFA when the step serves an NMI |
| Entries.BrkStep | mos6502/instructions.go:269-272 | BRK the same, with B set in the copy and PC two past the opcode |
| Entries.EntryInNumbers | mos6502/interrupts.go:29-90 | All four entries in one statement: registers, frame, and the literal vector |
| Entries.StalledStep | mos6502/cpu.go:219-222 | With RDY low a step changes nothing |
| Entries.ServedInNumbers | mos6502/interrupts.go:70-79 | An IRQ or BRK serves an NMI exactly when one is pending after its fifth cycle, the five cycles spelled out |
| Machines.MachineStepIsInterpreted | bbc/memory_map.go:37-198 | The same on the BBC's memory map, devices included |
| Snapshots.RestoreContinues | bbc/snapshot.go:119-150 | After restoring a snapshot of a machine with no RESET pending into one with the same images and lines, both stay equal over every run of steps and signals: registers, counter, memory, bus cycles, hook calls |
| Snapshots.RestoreTicks | bbc/snapshot.go:126-128 | The same over every sequence of ticks of any budget, with signals between and inside them; and a tick returns on one machine exactly when it does on the other |
| Snapshots.RestorePromiseIff | bbc/snapshot.go:126-150 | Given the images, no host can ever tell the restored machine from the original if and only if no RESET was pending and RDY, NMI latch, NMI line and IRQ line agree; the "only if" needs IRQ only where it is neither masked nor behind an NMI |
| MaskedIrq.MaskedIrqShowsAfterCli | mos6502/cpu.go:231-236 | A difference in a masked IRQ line shows when the next instruction is CLI |
| MaskedIrq.MaskedIrqNeverShowsParked | mos6502/cpu.go:231-236 | And never shows, under any host, in a program that keeps I set |
| Snapshots.RestoreFaithfulIff | bbc/snapshot.go:126-150 | With the lines carried over: the next step under any host is the same if and only if no RESET was pending at the source |
| Snapshots.RestoreNextStepIff | bbc/snapshot.go:126-150 | With the lines not carried over: one undisturbed step is the same if and only if the lines that decide it agree |
| Snapshots.HiddenBytesNeverMatter | bbc/memory_map.go:89-96 | Bytes in banks that are not loaded and the registers behind FDC and Econet never influence a run |
| Snapshots.IndistinctReads | bbc/memory_map.go:37-59 | No read and no hook call tells memories apart that differ only in hidden bytes |
| Snapshots.IndistinctWrites | bbc/memory_map.go:65-84 | The same write leaves such memories indistinguishable |
| Snapshots.PlanShown | mos6502/cpu.go:219-237 | The bus cycles of a step give away whether it was an instruction, a RESET, an NMI or an IRQ |
| Bisimulation.StepAlike | mos6502/cpu.go:219-237 | Processors in step over indistinguishable memories stay in step for one step |
| Bisimulation.RunAlike | mos6502/cpu.go:219-237 | And over every run, bus cycle for bus cycle |
| Bisimulation.UsesAlike | mos6502/cpu.go:250-259 | And over every sequence of budgeted runs: both stop at the same step, or neither ever does |
| NmiProtocol.EdgeConservation | mos6502/cpu.go:88-97 | Over every run from any state, with edges in any bus cycle: the rising edges since the start and the one pending then are the services, plus the edges absorbed by a pending one, plus one if one is pending |
| NmiProtocol.FreshEdgeConservation | mos6502/cpu.go:88-97 | From New: all rising edges ever seen are services, absorbed or pending |
| SignalLines.EdgesAreServed | mos6502/cpu.go:88-97 | The same with the rising edges counted from the host's calls alone, in every bus cycle and between steps |
| SignalLines.RunEdges | mos6502/cpu.go:88-97 | Over every run, the line and the number of edges are what the history of calls says: an edge is a raise with no other raise since the last drop |
| SignalLines.DeliveredByHistory | mos6502/cpu.go:75-105 | After any calls IRQ and RDY have their last level, an NMI is pending exactly when it was or an edge came, and a RESET when it was or was raised |
| SignalLines.DropReArms | mos6502/cpu.go:88-97 | After a drop the next raise is latched; a raise of a line held high is not another edge |
| SignalLines.CallByCall | mos6502/cpu.go:75-105 | What each call does to each line, and which edges count as absorbed |
| SignalLines.FreshLines | mos6502/cpu.go:64-70 | The lines and registers New starts with |
| NmiProtocol.StepNmi | mos6502/cpu.go:219-237 | One step keeps the balance and takes the latch exactly when it serves an NMI |
| NmiProtocol.EntryNmi | mos6502/interrupts.go:64-90 | An entry takes the latch exactly when it is an NMI's or hijacked by one; RESET neither takes nor loses it |
| NmiProtocol.HijackChangesOnlyTheVector | mos6502/interrupts.go:29-90 | An edge before the vector decision of a BRK or IRQ changes the final PC and nothing else in registers and memory, and this step is its service |
| NmiProtocol.NoHijackWhenQuiet | mos6502/interrupts.go:70-79 | With a host that never acts inside a bus cycle the hijack branch is unreachable in every state |
| StackDiscipline.NestedRun | mos6502/cpu.go:191-200 | Any properly nested run, from any SP, with at most 256 live bytes and with stalls and other host calls anywhere, ends with the SP and the live bytes it began with |
| StackDiscipline.MatchingReturn | mos6502/instructions.go:200-283 | The return that closes a frame restores SP and gives back the PC after the JSR, the interrupted PC, BRK's address plus two, A, or P with B clear and U set |
| StackDiscipline.StepOpens | mos6502/instructions.go:200-247 | Each opening step lowers SP by its frame, stores what the frame must hold and disturbs nothing above |
| StackDiscipline.StepCloses | mos6502/instructions.go:211-283 | Each closing step reads its own frame back and stores nothing |
| Machines.MachineNestedRun | mos6502/cpu.go:191-200 | The stack law on the BBC's memory map |
| Machines.PushPullNests | mos6502/instructions.go:200-216 | PHA followed by PLA is such a run, anywhere in memory and from any SP, unless the push overwrites the PLA |
| Chains.AddAllAdds | mos6502/arith.go:10-78 | ADC over numbers of any length, low byte first: digits and final C make up the sum, in base 100 with D set and base 256 without |
| Chains.AddAllModulo | mos6502/arith.go:10-78 | The digits are the sum modulo base^k, and C is set exactly when it overflows |
| Chains.SubtractAllSubtracts | mos6502/arith.go:27-109 | SBC over numbers of any length: digits and final borrow make up the difference |
| Chains.SubtractAllModulo | mos6502/arith.go:27-109 | The digits are the difference modulo base^k, and C is clear exactly when it borrows |
| Chains.AdcMeans | mos6502/arith.go:10-78 | One ADC of legal bytes gives a legal byte and a carry that make up the sum |
| Chains.SbcMeans | mos6502/arith.go:27-109 | One SBC of legal bytes gives a legal byte and a borrow that make up the difference |
| Chains.SbcUndoesAdc | mos6502/arith.go:10-109 | SBC with the carry inverted restores A after ADC: all bytes in binary, all BCD bytes in decimal |
| Chains.DecimalFlags | mos6502/arith.go:49-109 | On all bytes, BCD or not, decimal SBC sets the flags of binary SBC and decimal ADC its Z |
| Chains.DecimalSignIff | mos6502/arith.go:63-70 | Decimal ADC's N and V are those of the binary sum if and only if the operands are outside one exact family |
| Chains.DecimalFlagsInPractice | mos6502/arith.go:49-78 | Two inputs that show the difference |
| Arithmetic.AdcInNumbers | mos6502/arith.go:10-25 | Binary ADC on all bytes: A, C, Z, N, and V exactly when the signed sum leaves -128..127 |
| Arithmetic.SbcInNumbers | mos6502/arith.go:27-109 | SBC on all bytes in both modes: C, Z and N of the difference, and V exactly when the signed difference leaves -128..127 |
| Arithmetic.DecimalAdcInNumbers | mos6502/arith.go:49-78 | Decimal ADC on all bytes, BCD or not: both corrections, and the flags at the point the code takes them |
| Arithmetic.DecimalSbcInNumbers | mos6502/arith.go:83-109 | Decimal SBC on all bytes: a correction of 6 for each digit that borrows |
| Arithmetic.GatesInNumbers | mos6502/instructions.go:91-93 | AND, ORA and EOR bit by bit |
| Arithmetic.FlagWeights | mos6502/status.go:10-19 | P as a sum of the weights of its flags |
| Arithmetic.FlagBits | mos6502/status.go:22 | Each flag as a bit of that byte |
| Masks.SumOverflow | mos6502/arith.go:18-21 | The sign rule behind the overflow mask is signed overflow, for all bytes and carries |
| Masks.Complement | mos6502/arith.go:27-44 | Adding the complement with C is subtraction with an inverted borrow, carry and overflow included |
| Masks.DigitwiseSum | mos6502/arith.go:57-77 | The two-stage correction of decimal ADC is two digit additions with a carry between |
| Masks.DigitwiseDifference | mos6502/arith.go:98-108 | The two-stage correction of decimal SBC is two digit subtractions with a borrow between |
| Masks.AddNibbles | mos6502/arith.go:57-77 | The program's nibble arithmetic computes those digit additions on all bytes |
| Masks.SubtractNibbles | mos6502/arith.go:98-108 | The program's nibble arithmetic computes those digit subtractions on all bytes |
| Rotates.RolCycle | mos6502/rmw.go:33-42 | k ROLs are a rotation of the nine bits by k modulo 9, for every k |
| Rotates.DoubledBy | mos6502/rmw.go:33-42 | k places of rotation multiply by 2^k modulo 511: the rotation, without reference to steps |
| Rotates.RotatesInvert | mos6502/rmw.go:33-53 | ROR undoes ROL and ROL undoes ROR, in byte and carry |
| Timing.TableAgrees | mos6502/opcodes.go:27-226 | The metadata of every opcode (mode, base cycles) is what its handler uses and spends |
| Timing.StepTiming | mos6502/cpu.go:219-237 | A step takes exactly the table's base cycles, one for an indexed read that crosses a page, one for a taken branch and one more if that crosses; 2 for an undocumented byte; 7 for an interrupt; whatever D and the host do |
| OpcodeFields.CyclesTo3F | mos6502/opcodes.go:27-226 | The base cycles of every byte up to $3F, as a printed matrix |
| OpcodeFields.CyclesTo7F | mos6502/opcodes.go:27-226 | And up to $7F |
| OpcodeFields.CyclesToBF | mos6502/opcodes.go:27-226 | And up to $BF |
| OpcodeFields.CyclesToFF | mos6502/opcodes.go:27-226 | And up to $FF |
| Cycles.FirstGroupCycles | mos6502/addressing.go:51-147 | Every bus cycle of the first group, address by address; the extra read exactly when the low bytes carry, or for STA |
| Cycles.IndexReadCycles | mos6502/addressing.go:51-107 | The same for LDX, LDY, CPX, CPY and BIT |
| Cycles.IndexStoreCycles | mos6502/addressing.go:51-78 | The same for STX and STY |
| Cycles.MemoryShiftCycles | mos6502/rmw.go:11-15 | The same for read-modify-writes: read, write back, write |
| Cycles.OneByteCycles | mos6502/instructions.go:6 | One dummy fetch for transfers, counts, flags and shifts of A |
| Cycles.UndocumentedCycles | mos6502/illegal.go:21-30 | The hook call between the two reads of an undocumented byte |
| Cycles.BranchCycles | mos6502/instructions.go:171-185 | The second read of a taken branch, and the third in the old page when the target is in another |
| Cycles.StackCycles | mos6502/instructions.go:200-283 | The cycles of pushes, pulls and returns on page 1 |
| Cycles.JumpCycles | mos6502/instructions.go:231-247 | The cycles of JMP and JSR |
| Cycles.EntryCycles | mos6502/interrupts.go:29-90 | The cycles of each entry, and where in them a latch is cleared |
| Cycles.InterruptCycles | mos6502/cpu.go:223-236 | Which entry a step spends: RESET before NMI before IRQ, and BRK after two fetches |
| Timing.InstCost | mos6502/addressing.go:51-147 | The bus cycles of every instruction number its base cost and its extras; stores and read-modify-writes have none |
| Timing.StepCostBounds | mos6502/cpu.go:219-237 | A ready step takes two to seven cycles |
| Runs.RunOvershoot | mos6502/cpu.go:245-259 | A run that ends does so at or past its deadline by at most six cycles, or where RDY was low |
| Runs.RunSplit | mos6502/cpu.go:250-259 | If a run ends, so does a run to an earlier deadline, and it passes through the final state of that |
| Runs.RunIsSteps | mos6502/cpu.go:250-259 | A run is whole steps of two to seven cycles, and none of them from a state in which it could have stopped |
| Runs.RunEnds | mos6502/cpu.go:250-259 | Every run to a deadline at most 2^64 - 7 ends, whatever the program and the host |
| Runs.StepsAreMoves | mos6502/cpu.go:250-259 | The steps of a run are moves in a row, so every law about moves holds of ticks |
| Runs.RunSpendsBudgetIff | mos6502/cpu.go:250-259 | With RDY high, a run that returns ends within start+n and start+n+6 if and only if the deadline did not wrap; otherwise it does nothing |
| Endless.AlwaysReachedIff | mos6502/cpu.go:250-259 | For every deadline: every run of the machine under every program and every host that keeps RDY high reaches it if and only if it is at most 2^64 - 7 |
| Endless.RunMayNeverEnd | mos6502/cpu.go:250-259 | For each of the six deadlines above, one machine, seven cycles from the end of its counter, on which Run never returns |
| BusLog.RunExplained | mos6502/cpu.go:163-181 | Over every run from any state, memory, every value read and every hook call follow from the start and the bus events since |
| BusLog.RunStamped | mos6502/cpu.go:163-181 | Over every run from any state, stamps are consecutive from the starting count, around the end of the counter, and end at the counter |
| BusLog.FreshRunExplained | mos6502/cpu.go:163-181 | From New, the whole log alone determines memory and hook calls |
| BusLog.FreshRunStamped | mos6502/cpu.go:163-181 | From New, stamps are consecutive from 1 and the counter is the length of the log |
| BusLog.StepIsDriven | mos6502/cpu.go:219-237 | Everything a step does to the bus is one list of acts in order |
| BusLog.TrapsAreIllegalBytes | mos6502/illegal.go:21-30 | The illegal-opcode hook is called exactly for an executed undocumented byte, once, with its address and value |
| BusLog.OneCallPerCycle | bbc/unmapped.go:27-31 | At most one hook call for each bus cycle |
| BbcLaws.HookLogIsFilteredBusLog | bbc/unmapped.go:27-31 | Over every run from any state, the hook calls made are the subsequence of the bus events that is unmapped under the bank of that moment, at most one a cycle |
| BbcLaws.FreshHookLog | bbc/unmapped.go:27-31 | From New, the whole hook log is the filtered bus log |
| BbcLaws.RomWritesAreSilent | bbc/memory_map.go:65-84 | A write to OS or sideways ROM changes nothing and is not reported |
| BbcLaws.WriteAbsorbs | bbc/memory_map.go:65-84 | Only the last of two writes to an address matters, on every device |
| BbcLaws.ReadAfterWrite | bbc/memory_map.go:37-198 | Exactly what any address reads after a write to any address: mirrors, bank latch and CRTC index included |
| Layout.ReadsByAddress | bbc/memory_map.go:37-151 | What each of the 65536 addresses reads, by literal ranges |
| Layout.WritesByAddress | bbc/memory_map.go:65-198 | What a write to each address changes in RAM, bank and CRTC, and that ROM never changes |
| Layout.FilesByAddress | bbc/memory_map.go:164-198 | And in ACIA, ULAs and VIAs, mirrors included |
| Layout.UpperFilesByAddress | bbc/memory_map.go:183-198 | And in FDC, Econet, ADC and Tube |
| Layout.HooksByAddress | bbc/unmapped.go:27-31 | Exactly which reads and writes the hook hears of, by literal ranges |
| Layout.BankMovesIff | bbc/rom_select.go:7-9 | The bank moves exactly for a write to $FE30-$FE33 with another bank in its low two bits |
| Layout.BlankIsZero | bbc/machine.go:31-38 | A new machine is all zero, with no image loaded |
| Layout.ClearedIsZero | bbc/machine.go:61-72 | ColdReset zeroes RAM and every stub register, and keeps the images |
| Layout.BankLoaded | bbc/rom.go:45-55 | Loading an image touches its bank alone |
| BbcLaws.Mirrors | bbc/memory_map.go:113-151 | Two SHEILA addresses name the same register exactly when they are equal modulo the size of the same stub |
| BbcLaws.IoAbsorbs | bbc/memory_map.go:65-84 | The BBC memory meets the hypothesis of the interpreter theorem |
| BbcLaws.IoStackIsRam | bbc/memory_map.go:37-84 | Page 1 changes only by writes to its own addresses |
| BbcLaws.RunKeepsRoms | bbc/memory_map.go:65-84 | No run of the processor, from any state, changes a ROM byte or a loaded flag; bank and CRTC index stay in range |
| Machines.RomsAreSafe | bbc/machine.go:46-81 | Nor does any mix of steps, host calls, Resets and ColdResets, from any state |
| Machines.ColdMemoryIsFresh | bbc/machine.go:55-72 | After a ColdReset the memory is a fresh machine's with the same images |
| Machines.ColdStartIsFreshIff | bbc/machine.go:55-72 | From the power cycle on the machine does what a fresh one does, for ever and under every host (registers, counter, memory, lines, bus cycles, hook calls), if and only if A, X, Y, SP, PC, the flags RESET keeps and the counter were zero, RDY was high and no IRQ or NMI was up |
| Machines.ColdStartKeepsA | bbc/machine.go:55-72 | A survives a ColdReset |
| Machines.BreakInNumbers | bbc/machine.go:46-53 | Reset puts the bank at 0 and raises RESET, and moves nothing else |
| Machines.PowerCycleInNumbers | bbc/machine.go:61-72 | ColdReset zeroes RAM, bank and stubs and raises RESET, and moves nothing else |
| Machines.RestoreInNumbers | bbc/snapshot.go:129-150 | Restore field by field: bank modulo 4, CRTC index modulo 18, images untouched |
| Machines.RestoreUndoesNothing | bbc/snapshot.go:97-150 | Restoring a machine's own snapshot changes nothing but a pending RESET |
| LiveFlags.LiveP | mos6502/status.go:25-38 | From any state with B clear, and U set or a RESET pending, every run keeps B clear in live P, and U is set once any bus cycle has run |
| LiveFlags.FreshLiveP | mos6502/status.go:25-38 | So in every state reached from New |
| LiveFlags.PushedBreakBit | mos6502/interrupts.go:36-43 | So in every state such a run reaches, the pushed byte is live P with U set, and B set exactly for BRK |
| Status.FlagsRoundTrip | mos6502/status.go:10-19 | Eight flags survive being packed into a byte |
| Status.ByteRoundTrip | mos6502/status.go:10-19 | Every byte survives being unpacked into flags |
| Status.FlagMasks | mos6502/status.go:10-22 | Each flag is the test of the program's mask for it |
| Disassembler.TextInjective | mos6502/disasm.go:14-57 | At one address, two documented instructions that print alike are the same bytes |
| Disassembler.Assembles | mos6502/opcodes.go:27-226 | Mnemonic and operand shape determine every documented opcode |
| Disassembler.LengthIsAdvance | mos6502/disasm.go:14-24 | The printed length is how far an instruction that does not divert control moves PC |
| Disassembler.TargetIsReached | mos6502/disasm.go:38-42 | The printed branch target is where the taken branch goes, around both ends of the address space |
| Disassembler.PrintedModes | mos6502/disasm.go:26-86 | The text of each addressing mode around the operand's digits, and a branch's goal |
| Disassembler.DigitsInOrder | mos6502/disasm.go:88-100 | Bytes and words in hexadecimal, most significant digit first |
| Disassembler.LengthsOfDiversions | mos6502/addressing.go:26-40 | The lengths of branches, jumps, calls and returns |
| Disassembler.Disassemble | mos6502/disasm.go:14-24 | Prints the text and length that the lemmas are about, and leaves the memory alone but for the hook calls of its reads |
| Disassembler.AppendOperand | mos6502/disasm.go:26-57 | Appends the operand of each mode, reading no byte the mode does not have |
| Disassembler.AppendHex2 | mos6502/disasm.go:88-92 | Appends the two digits of a byte |
| Disassembler.AppendHex4 | mos6502/disasm.go:94-100 | Appends the four digits of a word, high byte first |
| Processor.CPU.constructor | mos6502/cpu.go:64-70 | All registers zero, RESET pending, RDY high, memory untouched |
| Processor.CPU.SetTrace | mos6502/cpu.go:116 | Attaching a recorder changes nothing else; from here on it sees every bus cycle |
| Processor.CPU.TraceAgrees | mos6502/cpu.go:163-181 | An attached recorder retains exactly the last events, as many as fit, of those it came with and all those on the bus since it was attached or reset |
| Processor.CPU.ResetTrace | mos6502/trace.go:77-80 | After a reset the attached recorder is empty, and sees every bus cycle from here on |
| Processor.CPU.AssertReset | mos6502/cpu.go:75 | Latches a RESET and moves no other line |
| Processor.CPU.AssertIRQ | mos6502/cpu.go:81 | Sets the IRQ level and moves no other line |
| Processor.CPU.AssertNMI | mos6502/cpu.go:88-93 | Latches an NMI on a rising edge only |
| Processor.CPU.DeassertNMI | mos6502/cpu.go:97 | Re-arms the edge and keeps a pending NMI |
| Processor.CPU.SetRDY | mos6502/cpu.go:105 | Sets RDY and moves no other line |
| Processor.CPU.Read | mos6502/cpu.go:163-171 | One read cycle: value, counter, log, host signals, hook call, and the event in an attached recorder |
| Processor.CPU.Write | mos6502/cpu.go:175-181 | One write cycle, and the event in an attached recorder |
| Processor.CPU.Fetch | mos6502/cpu.go:184-188 | A read cycle at PC, which then moves on and wraps |
| Processor.CPU.Push | mos6502/cpu.go:191-194 | A write cycle at the top of the stack; SP wraps within the page |
| Processor.CPU.Pull | mos6502/cpu.go:197-200 | A read cycle one above SP, which wraps |
| Processor.CPU.Step | mos6502/cpu.go:219-237 | The whole state after a step is that of the step function of the theorems: priority of RESET, NMI and IRQ, and all 256 opcodes |
| Processor.CPU.StepCycle | mos6502/cpu.go:243 | The same |
| Processor.CPU.Run | mos6502/cpu.go:250-259 | The loop computes the run of the theorems, for every run that comes to an end |
| Processor.CPU.Registers | mos6502/cpu.go:120-130 | Registers and counter as they are |
| Processor.CPU.SetRegisters | mos6502/cpu.go:139-148 | Registers and counter as given, and a pending RESET dropped |
| Processor.CPU.EffZeroPage | mos6502/addressing.go:51-53 | Address and bus cycles of zero page |
| Processor.CPU.EffZeroPageX | mos6502/addressing.go:58-62 | Zero page,X wraps within the page after a dummy read |
| Processor.CPU.EffZeroPageY | mos6502/addressing.go:66-70 | Zero page,Y likewise |
| Processor.CPU.EffAbsolute | mos6502/addressing.go:74-78 | Address and bus cycles of absolute |
| Processor.CPU.EffAbsoluteX | mos6502/addressing.go:85-94 | Absolute,X with a dummy read at the uncorrected address when a page is crossed, or always |
| Processor.CPU.EffAbsoluteY | mos6502/addressing.go:98-107 | Absolute,Y likewise |
| Processor.CPU.EffIndirect | mos6502/addressing.go:113-120 | JMP's pointer wraps within its page |
| Processor.CPU.EffIndexedIndirect | mos6502/addressing.go:125-132 | (zp,X): pointer and its second byte wrap within page zero |
| Processor.CPU.EffIndirectIndexed | mos6502/addressing.go:137-147 | (zp),Y with the same dummy read as absolute,Y |
| Processor.CPU.OpAdc | mos6502/arith.go:10-25 | Computes the ADC of the arithmetic theorems: V is signed overflow, C the carry |
| Processor.CPU.OpSbc | mos6502/arith.go:27-44 | Computes the SBC of the arithmetic theorems |
| Processor.CPU.AdcBcd | mos6502/arith.go:49-78 | The nibble code computes two digit additions on all bytes |
| Processor.CPU.SbcBcd | mos6502/arith.go:83-109 | The nibble code computes two digit subtractions on all bytes, with binary flags |
| Processor.CPU.UpdateNZ | mos6502/status.go:35-38 | N and Z from a byte, and nothing else |
| Processor.CPU.Compare | mos6502/instructions.go:134-137 | C is unsigned at-least, Z equality, N the sign of the difference |
| Processor.CPU.OpBit | mos6502/instructions.go:122-126 | Z from the conjunction, V and N from the operand |
| Processor.CPU.UseOperand | mos6502/instructions.go:12-154 | Every read instruction, given its operand |
| Processor.CPU.ReadInst | mos6502/instructions.go:12-154 | A read instruction: operand at the effective address, registers and bus cycles |
| Processor.CPU.StoreInst | mos6502/instructions.go:42-56 | A store: always the penalty read, no flag touched |
| Processor.CPU.ImpliedInst | mos6502/instructions.go:62-163 | A transfer, flag change, NOP, increment or decrement, after one dummy fetch |
| Processor.CPU.ShiftInst | mos6502/instructions.go:289-323 | The accumulator forms agree with the memory forms in byte and flags |
| Processor.CPU.BranchInst | mos6502/instructions.go:171-185 | The mask tests of the code, the target, and the dummy reads of a taken and of a page-crossing branch |
| Processor.CPU.OpPha | mos6502/instructions.go:200-203 | Pushes A |
| Processor.CPU.OpPhp | mos6502/instructions.go:206-209 | Pushes P with B and U set, and leaves live P |
| Processor.CPU.OpPla | mos6502/instructions.go:211-216 | Pulls A and sets N and Z |
| Processor.CPU.OpPlp | mos6502/instructions.go:220-225 | Pulls P with B cleared and U set |
| Processor.CPU.OpJmpAbs | mos6502/instructions.go:231 | Jumps to the operand |
| Processor.CPU.OpJmpInd | mos6502/instructions.go:232 | Jumps through the pointer, page bug included |
| Processor.CPU.OpJsr | mos6502/instructions.go:240-247 | Reads the high target byte after its two pushes |
| Processor.CPU.OpRts | mos6502/instructions.go:250-258 | Returns past the pushed address, with three dummy reads |
| Processor.CPU.OpBrk | mos6502/instructions.go:269-272 | Enters with PC two past the opcode |
| Processor.CPU.OpRti | mos6502/instructions.go:275-283 | Pulls P and then PC |
| Processor.CPU.IllegalNop | mos6502/illegal.go:21-30 | Reports address and opcode, and takes one dummy read |
| Processor.CPU.ReadModifyWrite | mos6502/rmw.go:11-15 | Read, write back, write the result, in this order |
| Processor.CPU.RmwInst | mos6502/rmw.go:59-92 | A read-modify-write with its address |
| Processor.CPU.OpAsl | mos6502/rmw.go:19-24 | The byte doubled; the bit lost goes to C |
| Processor.CPU.OpLsr | mos6502/rmw.go:26-31 | The byte halved; the bit lost goes to C |
| Processor.CPU.OpRol | mos6502/rmw.go:33-42 | One place of the nine-bit rotation |
| Processor.CPU.OpRor | mos6502/rmw.go:44-53 | One place back |
| Processor.CPU.OpInc | mos6502/rmw.go:55 | One more, modulo 256; C untouched |
| Processor.CPU.OpDec | mos6502/rmw.go:56 | One less, modulo 256; C untouched |
| Processor.CPU.EnterInterrupt | mos6502/interrupts.go:29-90 | The whole state after an entry of each kind, hijacked or not |
| Processor.CPU.PushState | mos6502/interrupts.go:36-56 | Three pushes, with the copy of P that fits the cause |
| Processor.CPU.FakePushes | mos6502/interrupts.go:47-52 | RESET's three stack reads lower SP and store nothing |
| Processor.CPU.VectorTo | mos6502/interrupts.go:62-90 | The vector in force at the decision, and which latch is cleared and when |
| Tracing.Trace.constructor | mos6502/trace.go:35-40 | An empty recorder of the capacity asked for, at least one |
| Tracing.Trace.Append | mos6502/trace.go:44-51 | The ring still holds the latest events of all those recorded |
| Tracing.Trace.Snapshot | mos6502/trace.go:56-66 | Exactly the last min(count, capacity) events, oldest first |
| Tracing.LastIsTheEnd | mos6502/trace.go:56-66 | The last n events are an end of what was recorded |
| Tracing.Trace.Len | mos6502/trace.go:69-74 | The length of that snapshot |
| Tracing.Trace.Reset | mos6502/trace.go:77-80 | Empty again |
| MappedMemory.MemoryMap.Read | bbc/memory_map.go:37-59 | The decoder reads the cell an address names, changes no memory and reports an unmapped read |
| MappedMemory.MemoryMap.Write | bbc/memory_map.go:65-84 | The decoder changes the cell an address names and no other, and reports an unmapped write |
| MappedMemory.MemoryMap.SidewaysRead | bbc/memory_map.go:89-96 | The selected bank, or open bus and a report when it is not loaded |
| MappedMemory.MemoryMap.IoRead | bbc/memory_map.go:102-108 | SHEILA reads |
| MappedMemory.MemoryMap.IoReadLow | bbc/memory_map.go:113-132 | SHEILA reads below $40, write-only latches included |
| MappedMemory.MemoryMap.IoReadHigh | bbc/memory_map.go:136-151 | SHEILA reads from $40, mirrors included; none is unmapped |
| MappedMemory.MemoryMap.IoWrite | bbc/memory_map.go:155-162 | SHEILA writes |
| MappedMemory.MemoryMap.IoWriteLow | bbc/memory_map.go:164-181 | SHEILA writes below $40 |
| MappedMemory.MemoryMap.IoWriteHigh | bbc/memory_map.go:183-198 | SHEILA writes from $40; none is unmapped |
| MappedMemory.MemoryMap.FireUnmapped | bbc/unmapped.go:27-31 | One report with address, direction and value |
| MappedMemory.MemoryMap.WriteRomSelect | bbc/rom_select.go:7-9 | The latch keeps two bits, so it stays below 4 |
| Devices.Crtc.Read | bbc/crtc.go:20-25 | The selected register, or open bus at the index |
| Devices.Crtc.Write | bbc/crtc.go:29-38 | Keeps the index below 18, whatever is written |
| Devices.Crtc.Zero | bbc/crtc.go:41-46 | All registers and the index zero |
| Devices.Crtc.Restore | bbc/crtc.go:54-60 | Brings a captured index into range |
| Devices.RegisterFile.Read | bbc/fdc.go:11 | Last write, or open bus for the two write-only stubs |
| Devices.RegisterFile.Write | bbc/acia.go:14 | One register changes |
| Devices.Peripherals.Zero | bbc/peripheral.go:41-53 | Every stub at its power-on registers |
| Devices.Peripherals.Restore | bbc/snapshot.go:139-148 | Every stub as captured |
| Machines.Machine.constructor | bbc/machine.go:31-38 | Blank memory, fresh processor under the given host, RESET pending |
| Machines.Machine.Reset | bbc/machine.go:46-53 | Bank latch cleared and RESET latched, nothing else; refused without an OS ROM |
| Machines.Machine.ColdReset | bbc/machine.go:61-72 | Power-on memory under the loaded images and RESET latched; refused without an OS ROM |
| Machines.Machine.Tick | bbc/machine.go:79-81 | A budgeted run on the machine's memory |
| Machines.Machine.LoadOSROM | bbc/rom.go:28-35 | The image and the flag, or an error and no change |
| Machines.Machine.LoadSidewaysROM | bbc/rom.go:45-55 | One bank's image and flag, or the right error and no change |
| Machines.Machine.Snapshot | bbc/snapshot.go:97-116 | Captures every part of the state that the restore theorems need |
| Machines.Machine.Restore | bbc/snapshot.go:129-150 | The restored state of those theorems, or the right error and no change |

## Left out

- Processor.CPU.Run: the contract is about runs that come to an end, since a run that never does has no result. That every run to a deadline at most 2^64 - 7 ends is `Runs.RunEnds`; what can happen above is `Endless.AlwaysReachedIff`.
- Machines.Machine.Tick: the same.
- Snapshots.RestoreNextStepIff: one step, with a host quiet inside its bus cycles. The promise over all runs and hosts is `Snapshots.RestorePromiseIff`.
- Snapshots.RestorePromiseIff: one way only where the IRQ lines differ and the difference cannot be acted on at once; there it depends on the program, as `MaskedIrq` shows.
- StackDiscipline.NestedRun: TXS and RESET inside a frame are outside the shape of a nested run.
- NmiProtocol.NoHijackWhenQuiet: quiet means that nobody calls a signal method while a step is under way; between steps the host is free.
- The `init` functions that fill the dispatch and metadata arrays: the table is the function they compute.
- The `Memory` interface: the class `CPU` is bound to the class `MemoryMap`. The theorems are about any deterministic memory whose reads leave it unchanged.
- P as one byte in the fields: the class keeps a record of flags; packing and unpacking are proved and used at every push and pull.
- Arrays behind ROM images and register files: values of type `seq`, replaced as a whole. RAM, the CRTC's registers and the recorder's ring are arrays changed in place.
- ACIA, ADC, Tube, VIAs, ULAs, FDC and Econet one by one: one register file with a size and a readable switch. The ACCCON stub ignores writes and reads as open bus, and has no state.
- Installing, replacing and removing the two hooks, and what their bodies do: each call is an entry in a log.
- The texts of errors: an error is one of four values.
- The machine's own forwarding of signal calls to the processor, and its accessors.
- Undocumented opcodes beyond what the code does with them, and stalling by RDY inside an instruction.
- The single-step corpus harness, golden traces, benchmarks and the generator of the corpus.
