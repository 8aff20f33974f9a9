/** The whole emulator: processor object, memory unit object and cycle loop, against the
    sequential machine. */
module Emulator {
  import opened Words
  import opened Alu
  import opened FlatMemory
  import opened MemorySystem
  import opened MemoryUnit
  import opened PageTable
  import opened Isa
  import opened Datapath
  import opened Sequential
  import opened Pipeline
  import opened Invariant
  import opened Stages
  import opened PipelineTheorem
  import opened Liveness
  import opened ReportedPC
  import opened Processor

  const ZERO_ONLY := Flags(false, true, false, false)

  /** The machine as `runElf` sets it up; register 30 holds 0, the return address of `main`. */
  function Entry(entry: Word, sp: Word, mem: Mem, output: seq<Word>): (a: Arch)
    ensures a.regs.Valid()
  {
    Arch(Regs(seq(31, _ => 0), sp), ZERO_ONLY, entry, mem, output)
  }

  /** What is visible of the machine from outside, next to the state `a` of the sequential machine. */
  ghost predicate Shows(cfg: Config, s: Cpu, a: Arch)
    requires MemOk(cfg, s.mem)
  {
    s.regs == a.regs && s.nzcv == a.nzcv && View(cfg, s.mem) == a.mem && s.mem.output == a.output
  }

  /** If a run stops after its `h`-th instruction, then with the state of the sequential machine there. */
  lemma StopsAt(p: Program, a0: Arch, ms: MemSys, n: nat, h: nat)
    requires a0.regs.Valid() && WellBehaved(p, a0) && Starts(p, a0, ms) && Halted(p, At(p, a0, h)) && n > 0
    requires Ends(Run(p, BootOf(a0, ms), n).status)
    ensures MemOk(p.cfg, Run(p, BootOf(a0, ms), n).mem) && Shows(p.cfg, Run(p, BootOf(a0, ms), n), At(p, a0, h))
    ensures StopStatus(p, At(p, a0, h), Run(p, BootOf(a0, ms), n).status)
    ensures Run(p, BootOf(a0, ms), n).status == INS ==> Run(p, BootOf(a0, ms), n).pc == At(p, a0, h).pc
  {
    hide Run, Cycle, Retired, DataBehaves, FetchesText, Halted, Illegal, At, View, MemOk, Loaded;
    StopIsFinal(p, a0, ms, n);
    StopsAlike(p, a0, |Retired(p, BootOf(a0, ms), n)| - 1, h);
    StopsAlike(p, a0, |Retired(p, BootOf(a0, ms), n - 1)|, h);
    if Run(p, BootOf(a0, ms), n).status == INS { PCIsReported(p, a0, ms, n); }
  }

  lemma StopsAlike(p: Program, a0: Arch, i: nat, j: nat)
    requires a0.regs.Valid() && Halted(p, At(p, a0, i)) && Halted(p, At(p, a0, j))
    ensures At(p, a0, i) == At(p, a0, j)
  {
    hide Halted, At;
    if i <= j { HaltedForever(p, a0, i, j); } else { HaltedForever(p, a0, j, i); }
  }

  /** The loop leaves at the first stop, which comes within the bound. */
  lemma LoopStops(p: Program, a0: Arch, ms: MemSys, n: nat, cycleMax: nat, h: nat)
    requires a0.regs.Valid() && WellBehaved(p, a0) && Starts(p, a0, ms) && !ms.inflight && Halted(p, At(p, a0, h))
    requires Delay(p.cfg) >= 1 && cycleMax >= StopBound(p.cfg, h)
    requires 1 <= n && (n >= cycleMax || !Running(Run(p, BootOf(a0, ms), n).status))
    requires NotPastStop(p, BootOf(a0, ms), n, cycleMax)
    ensures Ends(Run(p, BootOf(a0, ms), n).status)
  {
    hide Run, Cycle, Retired, DataBehaves, FetchesText, Starts, Halted, At, View, MemOk, StopBound, Delay, Loaded;
    var stop := PipelineStops(p, a0, ms, h);
    StopIsFinal(p, a0, ms, n);
  }

  /** Fetch that leaves the data cache alone keeps within what the processor object models. */
  lemma QuietIsOrderly(p: Program, a0: Arch, ms: MemSys)
    requires a0.regs.Valid() && WellBehaved(p, a0) && Starts(p, a0, ms)
    ensures OrderlyRun(p, BootOf(a0, ms))
  {
    hide Run, DataBehaves, FetchesText, View, MemOk, MemShaped, Loaded, SelectPC, FetchHalts, FetchCached;
    forall n: nat ensures Orderly(p, Run(p, BootOf(a0, ms), n)) {
      AllQuiet(p, a0, ms, n + 1);
      assert Quiet(p, Run(p, BootOf(a0, ms), n));
    }
  }

  /** The emulator, run on any well-behaved program that is in memory and ends after `h`
      instructions, and given enough cycles, ends in exactly the state the sequential machine
      ends in, whatever the cache. */
  method Emulate(ghost p: Program, entry: Word, sp: Word, mem: Unit, cycleMax: nat, ghost h: nat) returns (core: Core)
    requires mem.Valid() && mem.cfg == p.cfg && !mem.Model().busy && !mem.Model().inflight && Loaded(p, mem.Model())
    requires var a0 := Entry(entry, sp, View(p.cfg, mem.Model()), mem.Model().output);
      && WellBehaved(p, a0) && Halted(p, At(p, a0, h))
      && Delay(p.cfg) >= 1 && cycleMax >= StopBound(p.cfg, h)
    modifies mem.Footprint()
    ensures core.Valid() && core.Beside(mem)
    ensures MemOk(p.cfg, old(mem.Model()))
    ensures var a0 := Entry(entry, sp, View(p.cfg, old(mem.Model())), old(mem.Model().output));
      && Shows(p.cfg, core.With(mem.Model()), At(p, a0, h)) && StopStatus(p, At(p, a0, h), core.status)
      && (core.status == INS ==> core.pc == At(p, a0, h).pc)
  {
    hide Unit.Model, Pages.Valid, Pages.Contents, MemOk, Run, Cycle, WellBehaved, At, View, StopBound, Delay, Halted,
      Core.With, NotPastStop, Loaded, OrderlyRun;
    ghost var ms := mem.Model();
    ghost var a0 := Entry(entry, sp, View(p.cfg, ms), ms.output);
    ShapeKept(p.cfg, ms);
    core := new Core(p, mem.cfg, entry, sp, ms);
    assert mem.Model() == ms;
    ghost var s0 := core.With(ms);
    assert s0 == BootOf(a0, ms);
    QuietIsOrderly(p, a0, ms);
    var n := core.RunElf(mem, cycleMax);
    StatusShown(core, mem.Model());
    LoopStops(p, a0, ms, n, cycleMax, h);
    StopsAt(p, a0, ms, n, h);
  }

  lemma StatusShown(core: Core, ms: MemSys)
    requires core.Valid()
    ensures core.With(ms).status == core.status && core.With(ms).pc == core.pc
  {}
}
