/** Forwarding hands decode exactly the register values the sequential machine has. */
module OperandValues {
  import opened Isa
  import opened MemorySystem
  import opened Datapath
  import opened Sequential
  import opened Pipeline
  import opened Invariant
  import opened Stages
  import opened TextMemory

  /** The memory stage of a cycle, seen through the invariant. */
  lemma MemoryInCycle(p: Program, a0: Arch, s: Cpu, k: nat)
    requires a0.regs.Valid() && DataBehaves(p, a0) && Inv(p, a0, s, k)
    ensures FetchMem(p, s) == s.mem
    ensures var ms' := DataAccess(p.cfg, s.mem, s.mOut).0;
      MemOk(p.cfg, ms') && Loaded(p, ms')
    ensures var a := At(p, a0, IndexM(s, k));
      var (ms', v) := DataAccess(p.cfg, FetchMem(p, s), s.mOut);
      ms'.busy ==>
        && (s.mOut.ms.read || s.mOut.ms.write) && DataWord(p.cfg, s.mOut.valEx)
        && View(p.cfg, ms') == View(p.cfg, s.mem) && ms'.output == s.mem.output
    ensures var a := At(p, a0, IndexM(s, k));
      var (ms', v) := DataAccess(p.cfg, FetchMem(p, s), s.mOut);
      !ms'.busy ==>
        var w := MemoryOut(p.cfg, s.mOut, v);
        && HoldsW(p, a, w) && w.status == s.mOut.status
        && (if s.mOut.status == BUB || Halted(p, a) then
              View(p.cfg, ms') == View(p.cfg, s.mem) && ms'.output == s.mem.output
            else w == SeqW(p, a) && View(p.cfg, ms') == MemAfter(p, a) && ms'.output == OutputAfter(p, a))
  {
    hide HoldsW, HoldsX, HoldsD, FetchReady, Squashed, DataAccess, MemoryOut, Behaves, MemAfter, OutputAfter, SeqW,
      Halted, Loaded, Quiet, FetchMem;
    var a := At(p, a0, IndexM(s, k));
    assert Behaves(p, a);
    QuietMem(p, s);
    OneAccess(p, a, s.mOut);
    AccessKeepsLoaded(p, s.mem, s.mOut);
    MemoryHolds(p, a, s.mem, s.mOut);
  }

  lemma OneAccess(p: Program, a: Arch, m: MReg)
    requires a.regs.Valid() && HoldsM(p, a, m)
    ensures !(m.ms.read && m.ms.write)
    ensures m.status == BUB ==> !m.ms.read && !m.ms.write
  {
    AccessIsOne(p, a);
  }

  lemma WritebackOffers(p: Program, a0: Arch, s: Cpu, k: nat, src: Reg)
    requires a0.regs.Valid() && DataBehaves(p, a0) && Inv(p, a0, s, k)
    ensures At(p, a0, IndexM(s, k)).regs.Read(src) ==
      if s.wOut.ws.wEnable && s.wOut.dst == src && src != XZR then WriteValue(s.wOut) else s.regs.Read(src)
  {
    hide HoldsX, HoldsD, HoldsM, FetchReady, Squashed, Behaves, SeqW, Halted, SeqStep, Loaded, Quiet;
    var a := At(p, a0, k);
    assert Behaves(p, a);
    if s.wOut.status != BUB {
      StageOffers(p, a, src, s.wOut);
      Unroll(p, a0, k);
    }
  }

  lemma MemoryOffers(p: Program, a0: Arch, s: Cpu, k: nat, src: Reg)
    requires a0.regs.Valid() && DataBehaves(p, a0) && Inv(p, a0, s, k)
    requires !DataAccess(p.cfg, FetchMem(p, s), s.mOut).0.busy
    ensures var w := MemoryOut(p.cfg, s.mOut, DataAccess(p.cfg, FetchMem(p, s), s.mOut).1);
      At(p, a0, IndexX(s, k)).regs.Read(src) ==
        if w.ws.wEnable && w.dst == src && src != XZR then WriteValue(w)
        else At(p, a0, IndexM(s, k)).regs.Read(src)
  {
    hide HoldsX, HoldsD, FetchReady, Squashed, Behaves, SeqM, SeqW, Halted, SeqStep, DataAccess, WriteValue, Loaded,
      Quiet;
    var i := IndexM(s, k);
    var a := At(p, a0, i);
    assert Behaves(p, a);
    MemoryInCycle(p, a0, s, k);
    var w := MemoryOut(p.cfg, s.mOut, DataAccess(p.cfg, FetchMem(p, s), s.mOut).1);
    if s.mOut.status != BUB {
      StageOffers(p, a, src, w);
      Unroll(p, a0, i);
    }
  }

  lemma WriteValueOf(p: Program, a: Arch)
    requires a.regs.Valid()
    ensures var w := SeqW(p, a);
      && w.ws == SeqX(p, a).ws && w.dst == SeqX(p, a).dst
      && (SeqX(p, a).op != LDUR ==> WriteValue(w) == SeqM(p, a).valEx)
  {
    OpShape(SeqD(p, a).op);
  }

  lemma ExecuteOffers(p: Program, a0: Arch, s: Cpu, k: nat, src: Reg)
    requires a0.regs.Valid() && DataBehaves(p, a0) && Inv(p, a0, s, k)
    requires !(s.xOut.op == LDUR && s.xOut.dst == src && src != XZR)
    ensures At(p, a0, IndexD(s, k)).regs.Read(src) ==
      if s.xOut.ws.wEnable && s.xOut.dst == src && src != XZR then Execute(s.xOut, s.nzcv).valEx
      else At(p, a0, IndexX(s, k)).regs.Read(src)
  {
    hide HoldsM, HoldsD, HoldsW, FetchReady, Squashed, Behaves, SeqX, SeqW, Halted, SeqStep, Execute, WriteValue,
      View, MemOk, MemShaped, Regs.Read, Loaded, Quiet;
    var i := IndexX(s, k);
    var a := At(p, a0, i);
    assert Behaves(p, a);
    if s.xOut.status != BUB {
      Unroll(p, a0, i);
      RegisterAfter(p, a, src);
      WriteValueOf(p, a);
    }
  }

  /** Operand correctness: unless a load in execute is about to provide it, the value
      decode passes on for a source register is the sequential one. */
  lemma ForwardedOperand(p: Program, a0: Arch, s: Cpu, k: nat, src: Reg)
    requires a0.regs.Valid() && DataBehaves(p, a0) && Inv(p, a0, s, k)
    requires !RunStages(p, s).mem.busy
    requires !(s.xOut.op == LDUR && s.xOut.dst == src && src != XZR)
    ensures ForwardOne(RunStages(p, s), src, s.regs.Read(src)) == At(p, a0, IndexD(s, k)).regs.Read(src)
  {
    hide DataAccess, Execute, Fetched, FetchHalts, SelectPC, StickyStatus, Decode, Sources, ExecuteFlags, FetchAt,
      NextPC, HoldsX, HoldsM, HoldsD, HoldsW, FetchReady, Squashed, At, IndexD, IndexX, IndexM, Loaded, Quiet;
    WritebackOffers(p, a0, s, k, src);
    MemoryOffers(p, a0, s, k, src);
    ExecuteOffers(p, a0, s, k, src);
  }

  /** What leaves decode for execute is the sequential machine's next instruction. */
  lemma DecodeHolds(p: Program, a0: Arch, s: Cpu, k: nat)
    requires a0.regs.Valid() && DataBehaves(p, a0) && Inv(p, a0, s, k) && OnPathD(s)
    requires !RunStages(p, s).mem.busy
    requires !LoadUse(s.xOut, Sources(s.dOut).src1, Sources(s.dOut).src2)
    ensures var a := At(p, a0, IndexD(s, k));
      var x := Forward(RunStages(p, s)).xIn;
      HoldsX(p, a, x) && x.status == s.dOut.status && x.status != BUB && (!Halted(p, a) ==> x == SeqX(p, a))
  {
    hide DataAccess, Execute, ExecuteFlags, FetchHalts, SelectPC, StickyStatus, FetchAt, NextPC, HoldsM, HoldsW,
      FetchReady, Squashed, SeqM, SeqStep, ForwardOne, OperandsOf, ControlOf, AluOpOf, ImmediateOf, CondOf, HwOf,
      Loaded, Quiet;
    var a := At(p, a0, IndexD(s, k));
    assert Behaves(p, a);
    var o := Sources(s.dOut);
    if Halted(p, a) {
      var x := Forward(RunStages(p, s)).xIn;
      HaltShape(s.dOut, x.valA, x.valB);
    } else {
      StatusOf(p, a);
      ForwardedOperand(p, a0, s, k, o.src1);
      ForwardedOperand(p, a0, s, k, o.src2);
    }
  }
}
