# Verified model of the pipelined Arm emulator

The emulator runs a 64-bit Arm subset on a five-stage pipeline with branch prediction, forwarding and
stalls, in front of a write-back cache and a demand-filled memory. This project models the build with
`PIPE` defined and `EC` not, and proves what that machine computes.

**What is proved.** For every well-behaved program, every cache geometry and every number of cycles, the pipeline
does what a machine does that runs one instruction at a time, whether the program ends with a HLT or at an illegal
instruction. Fetch reads the same memory and the same data cache as loads and stores do. `Emulator.Emulate` states
this of the imperative code as a whole; the functional theorems behind it are `PipelineTheorem.PipelineRefines`,
`PipelineTheorem.StopIsFinal`, `PipelineTheorem.StallsAreTransparent`, `Timing.HaltCycle`,
`CacheTiming.ExactCycles`, `Liveness.PipelineStops`, `IllegalEnd.IllegalIsReported` and
`IllegalMiss.ReportedWithCache`. The cache is proved to be a flat memory for the program and true LRU for the
statistician, over whole runs and whole traces.

Whether that one-instruction machine does what the Arm architecture says is settled encoding by encoding against a
reference written from the encoding classes (`ArmReference`): `ArmExceptions.EncodingIsArm` says exactly which
encodings of the classes the opcode table touches do in every state. Those that do not are legal to the emulator
but run as something else: shifted operands, bitfield moves that are not the shift they are taken for, divisions,
arithmetic shifts and rotations by register, pre- and post-indexed accesses, ADRP to register 31 and RET through
it.

**How it is organised.** Each layer has a specification as functions on values, the properties of that
specification as lemmas, and the code in its own imperative form proved equal to the specification.

- `Words`, `Arith`, `Bits`, `Masks`: 64-bit words as integers, division, bits, shifts and masks.
- `Adder`, `Alu`: the ripple-carry adder on its array of full adders, the ALU, conditions.
- `Isa`, `Datapath`: opcode table, formats, control signals; the pipeline registers and the stage functions.
- `Sequential`: the machine with no overlap. `OpMeaning`, `OpAgreement`: what the datapath makes of each
  opcode, without control signals. `ArmReference`, `ArmAgreement`, `ArmExceptions`: what the architecture makes
  of each encoding, and where the two agree. `IllegalCodes`: which encodings are none.
- `Pipeline`: one clock cycle. `Invariant`, `Stages`, `TextMemory`, `OperandValues`, `Refinement`, `CycleFields`,
  `ReadyStep`, `FrontEnd`, `FetchPath`, `PipelineTheorem`: the refinement. `PipelineFacts`, `IllegalEnd`,
  `IllegalMiss`, `ReportedPC`, `DataFault`, `Timing`, `Liveness`, `CacheTiming`, `StageOrder`: what follows from
  it. `TextFetch`, `DataFetch`: when fetch goes through the data cache, and what then happens. `Witness`, `Demos`,
  `EndlessWait`, `DoublePrint`: concrete programs.
- `Lru`, `CacheSet`, `LruContents`, `CacheModel`, `CacheCoherence`, `CacheTrace`, `EvictionCounts`: matrix LRU, one
  set, the cache, its agreement with a flat memory, traces and what they count. `MemorySystem`, `MissTiming`,
  `WordTrace`: word access with the miss countdown.
- `CacheSim`, `PageTable`, `MemoryUnit`, `Processor`, `Emulator`: the imperative code, as classes over arrays,
  linked pages and fields, up to the cycle loop.

**Conditions.** `Sequential.WellBehaved` says of the sequential run that data accesses go to aligned words of the
data segments (stores also to the console and to address 0) and, if there is a cache, that fetch stays out of the
data: every instruction of the run, and the one or two addresses fetched on the wrong path behind a RET or a
wrongly predicted branch, lie below the data segment or are special (`Sequential.FetchesText`). The run may end at
an illegal instruction or where there is no text. `Invariant.Loaded` says that the program is in memory and that
the data segment starts at a multiple of 4; no run changes the text (`TextMemory.AccessKeepsLoaded`).
`Witness.NopsBehave` and `Demos.TourBehaves` show that the conditions can be met, with any cache, the second with a
load, its use, a store, branches taken and not taken and a RET.

**The condition on fetch is exact.** The memory code decides by the address alone whether a read goes through the
data cache, so an instruction fetched at or above the data does, though it can only be an error.
`TextFetch.QuietIffText`: over a whole run no fetch does if and only if the program satisfies `FetchesText`;
`TextFetch.ClosedTextIsFetched` gives a simpler sufficient condition on the text. Where it fails, the theorems can
fail: `EndlessWait.JumpNeverStops` is a program of one branch that the emulator never finishes, and
`DoublePrint.PrintsOften` prints one word d times. `DataFetch.StuckIffNoAccess` says when such a fetch makes the
pipeline wait for ever.

A cache geometry has a block size of at least 8 and a set count that are powers of two below 2^31,
1 to 8 ways, and a miss delay of at least one cycle.

**Where code and comments differ, the model follows the code.** The report's comment says its formula
corrects extra hits; it corrects the misses, not the hits (`MissTiming.ReportedCounts`). A comment in the memory
code says that the cache is not used for instructions; it is, from the data segment on. A comment in fetch
says that the early test for a RET from `main` never fires; it does when the predicted PC is 0, and the
model keeps it. Decode has no case for ADRP and leaves RET's register alone, so both take register 31 for
the stack pointer (`ArmAgreement.SequentialIsArm` says exactly when that shows). An illegal instruction that has
to wait to enter decode is forgotten, and the run ends as if by HLT (`IllegalEnd.ReportedWithoutCache`
and `IllegalMiss.ReportedWithCache` say exactly when). The model's status `STOP` is the code's HLT status.

Check everything with `dafny verify dfyconfig.toml`.

## Model

| member | source | states |
|---|---|---|
| Emulator.Emulate | src/base/proc.c:97-269 | The loop run on the mutable processor and memory objects, for any well-behaved program that is in memory and ends after h instructions and any limit above an explicit bound, ends with the registers, flags, memory and printed words of the one-instruction-at-a-time machine after those h instructions, whatever the cache, and with status HLT, or INS and the PC of that instruction only if the program ended at an illegal one |
| Emulator.LoopStops | src/base/proc.c:265-267 | A loop that starts at least once and leaves at the first stop or at the limit leaves because the program ended, if the limit is above the bound |
| PipelineTheorem.PipelineRefines | src/base/proc.c:140-267 | After any number of cycles the retired instructions are, in order and with the values they wrote, a prefix of the sequential run; the register file is the sequential one there; memory is at most one and the flags at most two instructions further on |
| PipelineTheorem.StopIsFinal | src/base/proc.c:203-204 | The processor stops exactly in a cycle that retires the HLT or illegal instruction at which the sequential machine stops, never with a fault, with status INS only for an illegal one, and then registers, flags, memory and output are the sequential machine's final ones |
| PipelineTheorem.CycleKeepsInv | src/base/proc.c:180-261 | One cycle - stages, forwarding, hazards, commits, latches - keeps everything that ties the pipeline registers, register file, flags, memory and text to their place in program order |
| PipelineTheorem.RunInv | src/base/proc.c:140-267 | The invariant holds in every state reachable from the start, and the log of retired instructions is in program order |
| PipelineTheorem.StallsAreTransparent | src/pipe/hazard_control.c:110-122 | Two pipelines with different caches, or none, retire the same instructions with the same values, the same statuses except at an illegal instruction: one log is a prefix of the other, and equal logs mean equal register files |
| Refinement.BusyStep | src/pipe/hazard_control.c:110-122 | A cycle with an access in flight keeps the invariant, freezes decode, execute and memory, empties writeback and moves no instruction but the one that retires |
| Refinement.FetchHolds | src/pipe/instr_Fetch.c:195-298 | Off the wrong path fetch delivers exactly the next instruction of the sequential run, and HLT or an illegal instruction exactly when that run has ended |
| Refinement.RedirectTarget | src/pipe/instr_Fetch.c:42-58 | A RET in execute or a wrongly predicted branch in memory sends fetch to the PC of the next sequential instruction |
| Refinement.PredictionRight | src/pipe/instr_Fetch.c:74-127 | For an instruction that does not divert control the predicted PC is the sequential successor |
| Refinement.RetireOne | src/base/proc.c:212-213 | The clocked register write turns the register file into the sequential one after one more instruction, and a bubble writes nothing |
| FrontEnd.AfterMisprediction | src/pipe/hazard_control.c:146-154 | A wrongly predicted branch leaving execute empties both younger stages and leaves fetch ready for the fall-through path |
| FrontEnd.AfterRet | src/pipe/hazard_control.c:139-152 | A RET leaving decode empties decode and holds fetch until its target is known |
| FrontEnd.AfterLoadUse | src/pipe/hazard_control.c:87-94 | A load-use hazard keeps decode and fetch in place for one cycle and loses no instruction |
| FrontEnd.AfterAdvance | src/pipe/hazard_control.c:139-156 | Without a hazard the next instruction enters decode, and decode is on the wrong path exactly when the instruction entering execute diverts control |
| OperandValues.ForwardedOperand | src/pipe/forward.c:22-40 | Unless a load in execute is about to provide it, forwarding gives decode the value the sequential machine has for the register after all older instructions |
| OperandValues.DecodeHolds | src/pipe/instr_Decode.c:624-676 | What leaves decode is the sequential machine's own decoded instruction with its operands |
| CycleFields.ReadyCycle | src/pipe/hazard_control.c:124-156 | What every other cycle leaves in each register, and that no register is told to bubble and to stall at once |
| CycleFields.BusyCycle | src/pipe/hazard_control.c:110-122 | What a waiting cycle leaves in each register: everything in place, writeback a bubble, no flag written |
| PipelineFacts.NothingIsDropped | src/pipe/hazard_control.c:105-164 | In every reachable state the requests fit together and lose no instruction of the program: none both bubbles and stalls, fetch and decode are emptied only while fetch follows the wrong path, execute only when decode waits or holds nothing of the path, a stage waits only together with those before it, memory waits exactly when writeback is emptied, and flags are vetoed only when execute waits or sets none |
| PipelineFacts.WrongPathIsSquashed | src/pipe/hazard_control.c:124-156 | In every reachable state a wrongly predicted branch in memory means decode and execute are bubbles, a RET in execute means decode is one, execute only ever holds sequential instructions, no stale status is left for fetch, and no register is in the error state |
| PipelineFacts.OperandsAreSequential | src/pipe/forward.c:15-42 | In every reachable state the operands latched for execute are the sequential register values of that instruction's sources |
| PipelineFacts.FlagsCommitOnce | src/base/proc.c:206-210 | The flags change only in a cycle in which an instruction leaves execute, to what that instruction makes of them; an access in flight keeps them; a conditional branch tests the flags of the youngest older setter |
| IllegalEnd.IllegalMustNotWait | src/pipe/instr_Fetch.c:233-296 | In any state an illegal instruction enters decode if and only if decode is neither held up nor emptied in the cycle that fetches it; held up and not redirected, the next cycle fetches HLT instead |
| IllegalEnd.LostIffLetGo | src/pipe/instr_Fetch.c:233-296 | At any moment of a run the first illegal instruction is, or has retired, as a HLT if and only if some earlier cycle fetched it on its own path while decode was held up |
| IllegalEnd.IllegalIsReported | src/pipe/instr_Fetch.c:233-296 | When the first illegal instruction retires, registers, flags, memory and output are those of the sequential machine that has stopped in front of it, and the status is HLT if decode was held up while it was fetched and INS in every other case |
| IllegalEnd.ReportedWithoutCache | src/pipe/instr_Fetch.c:233-296 | Without a cache that is a property of the program: HLT if and only if the two instructions before it are a load and the use of what it loads, and the second does not transfer control where fetch does not look |
| IllegalMiss.ReportedWithCache | src/pipe/instr_Fetch.c:233-296 | With a cache it is one, too: HLT if and only if that is so, or the three instructions before it follow each other without a bubble or a jump, d is above 1, and the first of them accesses a block that is not among the A most recently used of its set |
| IllegalMiss.RunGaps | src/pipe/hazard_control.c:124-156 | In every reachable state there is a bubble behind the instruction in memory exactly if that instruction costs a cycle |
| IllegalCodes.IllegalEncodings | src/pipe/instr_base.c:92-132 | An encoding is illegal if and only if it is of none of the classes of the reference and not one of the forms, written out by their fields, that are taken for an instruction all the same; which encodings are HLT |
| IllegalCodes.TakenIsRun | src/pipe/instr_base.c:92-132 | What each of those forms is run as |
| IllegalCodes.WhereItEnds | src/pipe/instr_Fetch.c:195-298 | A program ends at address 0, at HLT, below or above the text, between instructions, and at an illegal encoding, and nowhere else |
| ReportedPC.PCIsReported | src/pipe/instr_Memory.c:62-70 | When the processor stops with status INS the PC is the address of the illegal instruction |
| DataFault.FaultIsReported | src/pipe/hazard_control.c:158-163 | In any state without a cache, an access to none of the special addresses and to no multiple of 8 in the data stops the processor two cycles on with status ADR: the PC is set back to it, the flags of the instruction right behind are not set, and no register is written for it; the instruction right behind makes its own access |
| Demos.GoesUnreported | src/pipe/instr_Fetch.c:233-296 | A program, run from the start, that loads, uses and then meets an illegal instruction, and stops with status HLT |
| Timing.CyclesSpent | src/pipe/hazard_control.c:87-156 | At any moment of a run without a fetch through the data cache the cycle count is instructions fetched, plus two per wrong prediction, one per RET, one per load used at once, plus the cycles spent waiting |
| Timing.HaltCycle | src/base/proc.c:140-267 | The instruction that ends the program, number h, is in writeback in exactly cycle h + 4 + penalties + waits, where a penalty is two cycles for a branch not taken, one for a RET and one for a load of a register that the next instruction reads |
| PipelineFacts.DecodeWaitsFor | src/pipe/hazard_control.c:87-94 | In every reachable state decode is made to wait if and only if an access is in flight, or execute holds a load of a general register that the instruction in decode reads |
| OpAgreement.HazardIsUse | src/pipe/hazard_control.c:87-94 | Between any two instructions the hazard unit sees a load and its use exactly when the first is a load to a register other than 31 and the second reads that register, by a table of what each opcode reads |
| ArmAgreement.ReadsAgree | src/pipe/instr_Decode.c:375-566 | By that table an instruction reads the general registers that it reads by its encoding class |
| CacheTiming.ExactCycles | src/base/mem.c:183-231 | With a cache that starts empty and has miss delay d that cycle is h + 4 + penalties + (d - 1) * M and the miss counter is d * M, where M counts the data accesses of the sequential run whose block is not among the A most recently used of its set |
| CacheTiming.RunCarries | src/base/mem.c:183-231 | In every reachable state the data cache is what the accesses of the sequential run so far make of an empty one, an access in flight being that many calls on the way, and the cycles waited are d - 1 for every miss so far plus those |
| Liveness.RunWaits | src/base/mem.c:187-199 | Every access in flight has a running countdown of its own block, so waiting is bounded by d - 1 cycles an instruction |
| Liveness.RetiresSteadily | src/base/proc.c:140-267 | By cycle n all but a bounded number of instructions have retired: no program gets stuck |
| Liveness.PipelineStops | src/base/proc.c:265-267 | If the sequential machine ends, the pipeline stops with status HLT or INS within a bound that depends only on h and d |
| Witness.NopsBehave | src/base/proc.c:97-140 | The conditions of the theorems can be met, with any cache: for every h a program that is well behaved and halts after exactly h instructions |
| Demos.TourBehaves | src/base/proc.c:140-267 | A program that is well behaved with any cache, with a load, the use of what it loads, a branch not taken, a branch taken, a store and a RET, and its final state |
| TextFetch.QuietIffText | src/base/mem.c:234-244 | For any program with a cache whose data accesses behave: no fetch of the whole run goes through the data cache if and only if the instructions of the sequential run, and what is fetched on the wrong path behind them - one address behind a RET, two behind a wrongly predicted branch unless the first ends it - lie below the data |
| TextFetch.ClosedTextIsFetched | src/base/mem.c:234-244 | That holds if every legal instruction of the text leads to below the data and the sequential run stays there |
| FetchPath.TrackStays | src/pipe/instr_Fetch.c:42-127 | Every cycle keeps it that fetch, on a wrong path, is at the address predicted for the instruction it should have left, or at the one predicted from there, or has stopped because one of them ends it |
| TextMemory.AccessKeepsLoaded | src/base/mem.c:203-220 | No load or store, and no block written back for one, changes a word of the text, nor does the cache hold another version of one |
| TextMemory.FetchesProgram | src/base/hw_elts.c:28-32 | What fetch reads from memory is the program wherever there is text, and an instruction error elsewhere |
| DataFetch.FetchIsOver | src/base/mem.c:183-231 | A fetch from the data is over in its cycle, and lets the pipeline go on, if and only if its word is cached or the wait for its block is over |
| DataFetch.StuckIffNoAccess | src/pipe/instr_Fetch.c:233-296 | A fetch from the data that has to wait, not redirected there, makes the pipeline wait for ever, with status BUB, if and only if the instruction then in memory has no data access of its own |
| DataFetch.PrintsEachCycle | src/pipe/hazard_control.c:110-122 | While a RET waits for a word of the data, a store to the console in memory prints again in every cycle |
| EndlessWait.JumpNeverStops | src/base/mem.c:187-199 | A program of one branch, to the first data word: the sequential run ends there after one instruction, and for every geometry with d above 1 the emulator never reports anything |
| DoublePrint.PrintsOften | src/base/mem.c:187-199 | A program of a console store and a RET to the data: the sequential run prints one word, the emulator has printed it d times after d + 3 cycles |
| Witness.NopsStayBelow | src/base/mem.c:234-244 | That simpler condition can be met: the NOP programs of every length do |
| ArmAgreement.Decodes | src/pipe/instr_base.c:92-132 | Which opcode the table and the alias rules give each encoding of the architecture that they accept |
| OpAgreement.SequentialIsOp | src/pipe/instr_Decode.c:29-349 | For every legal instruction in every state, control signals, operand selection and ALU add up to what a table by opcode says: registers read and written, flags, next address, memory |
| ArmAgreement.SequentialIsArm | src/pipe/instr_Fetch.c:136-180 | For every state and every encoding of an intended form - operands unshifted, shifts as immediate shifts, LSLV and LSRV, unindexed accesses, or register numbers with which it cannot matter - the machine does what the architecture says if and only if it is not an ADRP to register 31 that would change the stack pointer or a RET through register 31 with a non-zero stack pointer |
| ArmExceptions.EncodingIsArm | src/pipe/instr_Fetch.c:136-180 | Encoding by encoding: the machine agrees with the architecture in all states if and only if the form is an intended one and it is neither an ADRP to nor a RET through register 31 |
| ArmExceptions.Shown | src/pipe/instr_Fetch.c:136-180 | For every other encoding of the modelled classes a legal, well-behaved state in which the emulator and the architecture differ |
| Witness.ShiftedSum | src/pipe/instr_base.c:104-104 | ADDS X0, X1, X2, LSL #3 is a shifted sum and is not run as one |
| Witness.SignedField31 | src/pipe/instr_base.c:115-115 | SXTW X0, X1 is a signed bitfield move and is not run as one |
| Witness.Division | src/pipe/instr_Fetch.c:151-160 | UDIV X0, X1, X2 is a division and is not run as one |
| Witness.PreIndexed | src/pipe/instr_base.c:96-96 | STR X0, [SP, #-16]! is a pre-indexed store and is not run as one |
| Witness.PostIndexed | src/pipe/instr_base.c:95-95 | LDR X0, [X1], #8 is a post-indexed load and is not run as one |
| Witness.StorePreDiffers | src/pipe/instr_base.c:96-96 | A legal, well-behaved state in which that store leaves the base register where the architecture moves it |
| Witness.RetDiffers | src/pipe/instr_Decode.c:440-442 | A concrete state in which RET through register 31 goes to the stack pointer instead of to 0 |
| Witness.AdrpDiffers | src/pipe/instr_Decode.c:389-463 | A concrete state in which ADRP to register 31 changes the stack pointer instead of nothing |
| OpAgreement.OperandTable | src/pipe/instr_Decode.c:375-566 | Which register numbers each instruction reads and writes, and where 31 is the stack pointer and where it is zero |
| OpAgreement.ThreeRegisterTable | src/pipe/instr_Decode.c:522-529 | All flag-setting, logical and register-shift instructions read and write registers with 31 as zero |
| OpAgreement.AluAgrees | src/pipe/instr_Execute.c:47-68 | The ALU result is what the table gives for the opcode, and for loads and stores the address base plus signed offset |
| OpAgreement.FlagsAgree | src/base/hw_elts.c:146-206 | The flags are the mathematical carry, overflow, sign and zero of the operation, or unchanged |
| OpAgreement.ConditionsAgree | src/base/hw_elts.c:109-134 | For each of the 16 condition fields and all flags, the condition tested is the one the four bits stand for: seven tests and their opposites, and always |
| Isa.NoSharedOpcodes | src/pipe/instr_Fetch.c:136-180 | After alias resolution no instruction has one of the two shared opcodes |
| Processor.Core.constructor | src/base/proc.c:97-124 | The loop starts with empty registers in the state the theorems start from |
| Processor.Core.ChoosePC | src/pipe/instr_Fetch.c:25-66 | The PC and status fetch goes by, RET before misprediction before prediction |
| Processor.Core.FetchInstr | src/pipe/instr_Fetch.c:195-298 | The in-place fetch stage, reading its word from the memory unit, through the data cache where the code does, leaves processor and memory as the modelled stage does |
| Processor.Core.DecodeInstr | src/pipe/instr_Decode.c:624-676 | The in-place decode stage equals the modelled stage |
| Processor.Core.ExecuteInstr | src/pipe/instr_Execute.c:34-75 | The in-place execute stage, run on the ripple-carry adder, equals the modelled stage |
| Processor.Core.AccessData | src/base/hw_elts.c:275-288 | The data access through the memory unit is the modelled one |
| Processor.Core.MemoryInstr | src/pipe/instr_Memory.c:30-73 | The in-place memory stage equals the modelled stage, fault status and saved PC included |
| Processor.Core.WbackInstr | src/pipe/instr_Writeback.c:24-28 | The value to write is chosen as modelled |
| Processor.Core.ForwardReg | src/pipe/forward.c:15-42 | Both operands are overwritten by the newest value, execute before memory before writeback |
| Processor.Core.ControlHazards | src/pipe/hazard_control.c:27-64 | Every register's control and the flag veto after hazard handling, an error state being kept |
| Processor.Core.WriteReg | src/base/hw_elts.c:94-103 | The register file after a write: 31 is the stack pointer, 32 is discarded |
| Processor.Core.CommitState | src/base/proc.c:203-226 | The clocked state after a cycle: status, flags, registers and PC, all else unchanged |
| Processor.Core.LatchAll | src/base/proc.c:244-261 | Every register latches, empties or keeps its output side, and an error stops the processor |
| Processor.Core.ClockCycle | src/base/proc.c:180-262 | One turn of the loop is one cycle of the model, processor and memory together |
| Processor.Core.RunElf | src/base/proc.c:140-267 | The do-while loop is the modelled run of exactly as many cycles as it takes to stop or reach the limit, at least one, for any program that never goes to the data cache for an address between instructions |
| StageOrder.OrderDoesNotMatter | src/base/stage_ordering.c:17-138 | While fetch leaves the data cache alone, all 120 orders of the stage calls give the same state if and only if fetch makes up a HLT, or the data access leaves the word being fetched as it is and memory raises no fault or fetch sets the PC to the same address |
| StageOrder.TextWordStays | src/base/stage_ordering.c:17-138 | In every state of a run the data access does leave a word of the text as it is |
| StageOrder.Commute | src/base/proc.c:180-187 | Any two different stages commute, fetch and memory under that condition |
| CacheCoherence.FillKeepsFlat | src/base/mem.c:203-220 | Filling a line and then writing the dirty block it held back changes nothing a program sees, keeps the cache coherent and makes the whole block present |
| CacheCoherence.FillMemory | src/base/mem.c:216-220 | Memory changes exactly under the evicted block, to that line's bytes |
| CacheCoherence.CheckHitKeepsFlat | src/cache/cache.c:211-225 | A lookup changes counters, dirty bits and replacement state but nothing a program sees |
| CacheCoherence.GetWordIsLoad | src/cache/cache.c:278-282 | A word taken from the cache is the word of the flat memory |
| CacheCoherence.SetWordIsStore | src/cache/cache.c:288-293 | A word put into the cache is a store to the flat memory, and no other byte changes |
| CacheCoherence.EmptyIsFlat | src/cache/cache.c:55-79 | A new cache is coherent with any memory and shows exactly that memory |
| MemorySystem.ReadIsLoad | src/base/mem.c:178-244 | Whatever the cache does, a read leaves memory as seen unchanged, and when it completes returns the word there |
| MemorySystem.WriteIsStore | src/base/mem.c:246-309 | A write shows nothing until it completes, and then exactly the stored word |
| MissTiming.ReadsLastWrite | src/base/mem.c:178-296 | After any sequence of completed word operations a read returns the value last written to its address |
| MissTiming.MissTakesD | src/base/mem.c:183-202 | A missing access re-issued every cycle completes on exactly the d-th call, and no line, memory byte or replacement datum changes before |
| MissTiming.RestartsForOther | src/base/mem.c:187-195 | With a miss in flight, one on another block starts its wait from d, one on the same block goes on |
| MissTiming.HitAccess | src/base/mem.c:183-231 | A word that is cached completes at once with eight hits and no change to memory |
| MissTiming.CountersMean | src/base/mem.c:183-231 | With H words that hit and M that missed the counters are 8H + 7M hits and d*M misses, so misses divided by d is M |
| MissTiming.ReportedCounts | src/base/machine.c:186-190 | The report's misses are the words that missed, but its hits are 8H + 6M, which is the number of words that hit only for the empty sequence |
| Lru.TouchBit | src/cache/cache.c:165-182 | Bit (r,c) of the packed matrix after an access: set in the accessed row, cleared in its column, else unchanged |
| Lru.RowIsZeroMeans | src/cache/cache.c:184-190 | A row reads as zero under shift and mask exactly when all its bits are clear |
| CacheSet.NextIsLeast | src/cache/cache.c:184-191 | After any history an all-zero row exists, and its line is one that no other line is older than |
| CacheSet.HitTracks | src/cache/cache.c:211-225 | A hit keeps the matrix equal to the order of last use |
| CacheSet.InstallTracks | src/cache/cache.c:231-272 | A replacement keeps the matrix equal to the order of last use, and everything given away is older than everything kept |
| CacheSet.VictimInRange | src/cache/cache.c:197-205 | The line selected for replacement exists, although `next_lru` starts out of range |
| LruContents.ContentsAreMostRecent | src/cache/cache.c:197-272 | A set holds a block if and only if it was asked for and fewer than A other blocks of the set have been since |
| LruContents.Inclusion | src/cache/cache.c:197-224 | After the same history a set with more ways holds all that one with fewer holds |
| CacheTrace.ReplayTracks | src/cache/cache.c:304-306 | Every set of every trace is what true LRU leaves after the tags the trace asks it for |
| CacheTrace.HitIffRecent | src/cache/cache.c:147-225 | At any point of any trace an address is cached if and only if its block was asked for and fewer than A other blocks of its set since |
| WordTrace.WordHitIffRecent | src/cache/cache.c:197-272 | After any sequence of completed word operations on an empty cache an address is cached if and only if its block was asked for and fewer than A other blocks of its set since |
| WordTrace.PerformAllTracks | src/cache/cache.c:197-272 | The eight lookups of every word access, hit or miss, leave each set as true LRU leaves it after one |
| CacheTrace.MoreWaysHoldMore | src/cache/cache.c:197-224 | With equal block size and set count more associativity never turns a hit into a miss |
| CacheTrace.MoreWaysMissLess | src/cache/cache.c:304-306 | Nor does it ever miss more over a whole trace |
| CacheTrace.Conservation | src/cache/cache.c:211-272 | Over any trace hits plus misses are the accesses, and misses are clean plus dirty evictions plus the lines now valid |
| EvictionCounts.DirtyIffWritten | src/cache/cache.c:211-272 | After any trace a cached block's line is dirty if and only if the trace has written the block since it last came in |
| EvictionCounts.CountersAreOfTrace | src/cache/cache.c:253-257 | The four counters, from the trace alone: requests that find their block among the A most recently used ones, those that do not, and how many of these make a block leave that was written since it came in, and one that was not |
| EvictionCounts.AccessIsCounted | src/cache/cache.c:253-257 | What each request adds to the four counters, in the same terms |
| EvictionCounts.LeavesIffFull | src/cache/cache.c:197-205 | A request that misses makes a block leave if and only if its set has been asked for at least A blocks, and then one block only |
| EvictionCounts.ReadsEvictClean | src/cache/cache.c:253-257 | A trace of reads evicts no dirty block |
| EvictionCounts.WritesEvictDirty | src/cache/cache.c:253-257 | A trace of writes evicts no clean block |
| CacheModel.AddressRoundTrip | src/cache/cache.c:135-159 | Tag, set index and offset rebuild the address |
| CacheModel.BlockAddrParts | src/cache/cache.c:245-250 | The tag, index and offset an address is built from come back out of it |
| CacheModel.SameBlock | src/cache/cache.c:147-159 | Two addresses lie in one block if and only if tag and index agree |
| Masks.IndexByMask | src/cache/cache.c:135-140 | Shift and mask give the set index, for every power-of-two geometry |
| Masks.TagByShift | src/cache/cache.c:147-151 | The shift gives the tag |
| Masks.OffsetByMask | src/cache/cache.c:280-281 | The mask gives the offset |
| Masks.BaseByMask | src/base/mem.c:186-186 | The complemented mask gives the base of the block |
| Masks.BlockAddrByShifts | src/cache/cache.c:248-250 | The shifts and OR that rebuild the evicted block's address give the block the line held |
| CacheSim.LogLoop | src/cache/cache.c:40-46 | The shift loop computes the logarithm |
| CacheSim.LruStep | src/cache/cache.c:165-191 | The loops over the packed matrix touch it as specified and find the first all-zero row |
| CacheSim.CacheArray.SetOf | src/cache/cache.c:135-140 | The set found by shift and mask is the set of the address and in range |
| CacheSim.CacheArray.GetLine | src/cache/cache.c:147-159 | The search loop finds the first valid line with the tag, or none |
| CacheSim.CacheArray.SelectLine | src/cache/cache.c:197-205 | The search loop finds the first invalid line, or else the one the matrix named |
| CacheSim.CacheArray.Check | src/cache/cache.c:211-225 | The in-place lookup leaves the cache in exactly the specified state |
| CacheSim.CacheArray.Miss | src/cache/cache.c:231-272 | The in-place replacement leaves exactly the specified cache and evicted line |
| CacheSim.CacheArray.SetWordAt | src/cache/cache.c:288-293 | The in-place word write changes eight bytes and the dirty bit of one line |
| CacheSim.CacheArray.Simulate | src/cache/cache.c:304-306 | One simulated access does to the array what the trace theorems speak about |
| MemoryUnit.Unit.FetchBlock | src/base/mem.c:203-208 | The byte loop reads the block and changes no byte of memory |
| MemoryUnit.Unit.StoreBlock | src/base/mem.c:216-220 | The byte loop writes the evicted block and nothing else |
| MemoryUnit.Unit.ServeMiss | src/base/mem.c:201-220 | Fetching, replacing and writing back in place is the fill of the model |
| MemoryUnit.Unit.CountDown | src/base/mem.c:187-195 | The countdown starts over for a new block and loses one cycle, on 64 bits |
| MemoryUnit.Unit.AccessOne | src/base/mem.c:183-227 | One byte of an access, with hit, wait or fill, is the modelled one |
| MemoryUnit.Unit.AccessWord | src/base/mem.c:252-291 | The loop over the eight bytes is the modelled access, stopping at the first byte that has to wait |
| MemoryUnit.Unit.ReadInstr | src/base/mem.c:234-244 | A word read for fetch on pages and cache together is the modelled read |
| MemoryUnit.Unit.ReadData | src/base/mem.c:234-244 | A word read on pages and cache together is the modelled read |
| MemoryUnit.Unit.WriteData | src/base/mem.c:298-309 | A word write, a print or a dropped write is the modelled one |
| MemoryUnit.Unit.constructor | src/cache/cache.c:55-79 | Fresh pages and a fresh cache show an all-zero memory with nothing in flight |
| PageTable.ComputeHash | src/base/ptable.c:24-35 | The loop computes the hash, with signed characters and 64-bit wrap-around, always inside the table |
| PageTable.Pages.GetPage | src/base/ptable.c:37-45 | The chain search finds a page if and only if it was touched before, and then its storage |
| PageTable.Pages.AddPage | src/base/ptable.c:47-55 | A page of zeros at the head of its chain changes no byte of memory and duplicates no page |
| PageTable.Pages.ReadByte | src/base/mem.c:61-68 | A byte read returns the flat memory's byte and changes none |
| PageTable.Pages.WriteByte | src/base/mem.c:120-130 | A byte write changes exactly that byte |
| PageTable.Pages.ReadLE | src/base/mem.c:70-75 | The downward shift loop reads the little-endian number, also across pages |
| PageTable.Pages.WriteLE | src/base/mem.c:132-139 | The byte loop replaces exactly the bytes of the number, also across pages |
| PageTable.WriteThenRead | src/base/mem.c:70-139 | Writing a number of some width and reading it back gives it modulo that width, with every other byte unchanged |
| FlatMemory.LoadAfterStore | src/base/mem.c:70-139 | A word that was stored is read back |
| FlatMemory.LoadElsewhere | src/base/mem.c:70-139 | An aligned store leaves every other aligned word alone |
| Adder.RippleCarryAdder.Init | src/base/hw_elts.c:37-46 | The loop loads every bit of both operands and the carry in |
| Adder.RippleCarryAdder.RippleCarryAdd | src/base/hw_elts.c:51-65 | The 64 steps leave the sum modulo 2^64 and, as last carry, the quotient |
| Adder.PartialStep | src/base/hw_elts.c:53-63 | One full adder extends the sum of the low bits by one bit, losing nothing |
| Alu.RunAlu | src/base/hw_elts.c:139-270 | The in-place ALU gives the specified result, flags and condition for every operation; what these are is stated bit by bit and in numbers by the rows below |
| Alu.PlusMeaning | src/base/hw_elts.c:146-159 | C is the unsigned carry, and V is set if and only if the signed sum does not fit; otherwise the result is that sum |
| Alu.MinusMeaning | src/base/hw_elts.c:160-174 | C means no borrow, and V is set if and only if the signed difference does not fit; otherwise the result is that difference |
| Alu.CompareDecides | src/base/hw_elts.c:109-134 | After a comparison EQ to LE decide equality and the unsigned and signed orders of all 64-bit operands |
| Alu.MovkReplacesField | src/base/hw_elts.c:211-215 | MOVK replaces one 16-bit field and no other bit |
| Alu.MvnInverts | src/base/hw_elts.c:175-182 | MVN of a register inverts every bit |
| Alu.LogicBits | src/base/hw_elts.c:175-200 | AND, ORR, EOR and ORN are the conjunction, the disjunction, the difference and the disjunction with the inverse of every bit |
| Alu.EorSelf | src/base/hw_elts.c:191-192 | The exclusive or of a word with itself is 0 |
| Alu.ShiftBits | src/base/hw_elts.c:217-224 | The three shifts move every bit by the amount modulo 64 and bring in zeros, or the sign |

## Left out

- Processor.Core.RunElf: does not state the final PC at HLT, because the code leaves the predicted PC there, which is not an address the sequential machine has.
- PipelineTheorem.PipelineRefines: assumes that no data access of the sequential run faults; of a fault only what `DataFault.FaultIsReported` says is modelled. With a cache it assumes that fetch stays out of the data, for which the exact condition and failing inputs are proved.
- MemorySystem.DataRead: returns 0 outside ordinary data words, because console input, the checkpoint address and the read of address 0, which ends the program, are input and output.
- MemorySystem.DataWrite: keeps printed words as a list and drops other special writes; formatting is output. It also drops a store to a wrong address, which the code carries out before it reports the fault.
- MemorySystem.InstrBits: gives 0 for the word fetch gets from the data cache, at a special address or across the end of the address space, because such a fetch is an instruction error and its word is never used; reading the console or the checkpoint address as an instruction is input and output.
- Processor.Core.FetchInstr: requires a multiple of 4 of a fetch that goes through the data cache; across a block boundary the code fills the second block with the bytes of the first, and the cache is no longer coherent.
- StageOrder.OrderDoesNotMatter: requires that fetch leaves the data cache alone, because otherwise both stages count and touch lines in it.
- Alu.Flags: four Booleans rather than the packed nibble, which only ever is packed and unpacked.
- CacheModel.Cache: counters are unbounded integers; the code's `int` counters would wrap.
- CacheSim.CacheArray: the sets are values in an array, so a line's data buffer is not an object of its own and cannot be aliased.
- MemoryUnit.Unit.AccessWord: one loop stands for the identical loops of cached reads and writes; the pointer-scaled read that stores into `data` after a miss is overwritten before use and left out.
- PageTable.Page: without protection bits, which nothing tests.
- ArmExceptions.EncodingIsArm: does not speak about encodings the reference leaves outside its classes, though the emulator takes some for instructions (`IllegalCodes.TakenAnyway`): the other two-source operations (CRC32, pointer authentication and unallocated ones), system instructions other than hints, further forms under the top bits of RET, BC.cond, and accesses that write back to the register they transfer.
- DataFault.FaultIsReported: is about the build without a cache, because the wait for a faulting access is not modelled.
- ArmReference.ArmStep: a hint does nothing, and console, address 0 and words outside the data segments are treated as the emulator treats them; the architecture has no such addresses.
- The `EC` instructions (CSEL family, CBZ, CBNZ, BR, BLR) and the build without `PIPE`.
- The threads and barriers of the `PARALLEL` build; the order of the stages is covered by `StageOrder`.
- ELF loading, argument handling, logging, verbose display, checkpoints and the trace runner.
- Allocation failure and freeing; `create_checkpoint` and `display_set`.
- Opcodes kept only for display (`print_op`).
