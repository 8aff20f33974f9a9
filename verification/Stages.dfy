/** Each stage does to the instruction it holds what the sequential machine does to it. */
module Stages {
  import opened Words
  import opened Alu
  import opened Isa
  import opened FlatMemory
  import opened MemorySystem
  import opened Datapath
  import opened Sequential
  import opened Pipeline
  import opened Invariant

  // The shape of a well-behaved instruction.

  lemma OpShape(op: Op)
    ensures var c := ControlOf(op);
      && (c.w.wvalSel <==> op == LDUR) && (op == LDUR ==> c.w.wEnable)
      && (c.m.read <==> op == LDUR) && (c.m.write <==> op == STUR)
      && (op == HLT || op == ERROR || op == NOP || op == B_COND || op == RET ==>
            !c.x.setFlags && !c.m.read && !c.m.write && !c.w.wEnable)
  {}

  lemma HaltShape(d: DReg, valA: Word, valB: Word)
    requires (d.op == HLT && d.format == FormatS) || (d.op == ERROR && d.format == FormatError)
    ensures InertX(Decode(d, valA, valB)) && Sources(d).src1 == XZR && Sources(d).src2 == XZR
  {}

  lemma BubbleShape(valA: Word, valB: Word)
    ensures InertX(Decode(D_BUBBLE, valA, valB)) && Decode(D_BUBBLE, valA, valB).status == BUB
  {}

  lemma StatusOf(p: Program, a: Arch)
    requires a.regs.Valid() && Behaves(p, a) && !Halted(p, a)
    ensures SeqD(p, a).status == SeqX(p, a).status == SeqM(p, a).status == SeqW(p, a).status == AOK
  {
    hide AluResult, AluFlags, ControlOf, AluOpOf, ImmediateOf, OperandsOf;
  }

  lemma FlagsKeptBy(x: XReg, nzcv: Flags)
    ensures !x.xs.setFlags ==> ExecuteFlags(x, nzcv) == nzcv
  {}

  lemma Unroll(p: Program, a0: Arch, i: nat)
    requires a0.regs.Valid()
    ensures At(p, a0, i + 1) == SeqStep(p, At(p, a0, i))
  {}

  lemma {:induction false} HaltedForever(p: Program, a0: Arch, i: nat, j: nat)
    requires a0.regs.Valid() && Halted(p, At(p, a0, i)) && i <= j
    ensures At(p, a0, j) == At(p, a0, i)
  {
    hide Halted;
    if i < j {
      HaltedForever(p, a0, i, j - 1);
      HaltedStays(p, At(p, a0, i));
    }
  }

  lemma HaltedStays(p: Program, a: Arch)
    requires a.regs.Valid() && Halted(p, a)
    ensures SeqStep(p, a) == a
  {}

  // Execute.

  lemma ExecuteHolds(p: Program, a: Arch, x: XReg)
    requires a.regs.Valid() && HoldsX(p, a, x) && Behaves(p, a)
    ensures var m := Execute(x, a.nzcv);
      && HoldsM(p, a, m) && m.status == x.status
      && (x.status != BUB && !Halted(p, a) ==> m == SeqM(p, a))
      && (InertX(x) ==> ExecuteFlags(x, a.nzcv) == a.nzcv)
  {
    hide AluResult, PlusFlags, MinusFlags, LogicFlags, ControlOf, AluOpOf, ImmediateOf, OperandsOf, SeqD, Decode;
    if x.status != BUB && !Halted(p, a) { StatusOf(p, a); }
  }

  // Memory.

  /** The access of an inert instruction changes nothing. */
  lemma InertAccess(cfg: Config, ms: MemSys, m: MReg)
    requires MemShaped(cfg, ms) && InertM(m)
    ensures DataAccess(cfg, ms, m) == (ms, 0) && MemoryOut(cfg, m, 0).status == m.status
  {}

  lemma SpecialStore(cfg: Config, ms: MemSys, a: Word, v: Word)
    requires MemOk(cfg, ms) && MemShaped(cfg, ms) && !DataWord(cfg, a)
    ensures var ms' := DataWrite(cfg, ms, a, v);
      && MemOk(cfg, ms') && View(cfg, ms') == View(cfg, ms) && ms'.busy == ms.busy
      && ms'.output == if a == IO_CHAR_ADDR then ms.output + [v] else ms.output
  {
  }

  lemma MemoryHolds(p: Program, a: Arch, ms: MemSys, m: MReg)
    requires a.regs.Valid() && HoldsM(p, a, m) && Behaves(p, a)
    requires MemOk(p.cfg, ms) && MemShaped(p.cfg, ms)
    requires m.status != BUB ==> View(p.cfg, ms) == a.mem && ms.output == a.output
    requires ms.busy ==> (m.ms.read || m.ms.write) && DataWord(p.cfg, m.valEx)
    ensures MemOk(p.cfg, DataAccess(p.cfg, ms, m).0)
    ensures var (ms', v) := DataAccess(p.cfg, ms, m);
      ms'.busy ==>
        && (m.ms.read || m.ms.write) && DataWord(p.cfg, m.valEx)
        && View(p.cfg, ms') == View(p.cfg, ms) && ms'.output == ms.output
    ensures var (ms', v) := DataAccess(p.cfg, ms, m);
      !ms'.busy ==>
        var w := MemoryOut(p.cfg, m, v);
        && HoldsW(p, a, w) && w.status == m.status
        && (if m.status == BUB || Halted(p, a) then View(p.cfg, ms') == View(p.cfg, ms) && ms'.output == ms.output
            else w == SeqW(p, a) && View(p.cfg, ms') == MemAfter(p, a) && ms'.output == OutputAfter(p, a))
  {
    hide SeqM, SeqX, SeqD, DataRead, DataWrite, MemOk, View, MemShaped, Load64, Store64, Loaded;
    if m.status == BUB || Halted(p, a) {
      InertAccess(p.cfg, ms, m);
    } else {
      StatusOf(p, a);
      AccessIsOne(p, a);
      var addr := m.valEx;
      if m.ms.read {
        ReadIsLoad(p.cfg, ms, addr);
      } else if m.ms.write && DataWord(p.cfg, addr) {
        WriteIsStore(p.cfg, ms, addr, m.valB);
      } else if m.ms.write {
        SpecialStore(p.cfg, ms, addr, m.valB);
      }
    }
  }

  lemma AccessIsOne(p: Program, a: Arch)
    requires a.regs.Valid()
    ensures !(SeqM(p, a).ms.read && SeqM(p, a).ms.write)
  {
    OpShape(SeqD(p, a).op);
  }

  // Registers.

  /** The value of register `r` after one more instruction. */
  lemma RegisterAfter(p: Program, a: Arch, r: Reg)
    requires a.regs.Valid() && Behaves(p, a)
    ensures var w := SeqW(p, a);
      SeqStep(p, a).regs.Read(r) ==
        if !Halted(p, a) && w.ws.wEnable && w.dst == r && r != XZR then WriteValue(w) else a.regs.Read(r)
  {
    hide SeqW, Halted;
    if !Halted(p, a) { StatusOf(p, a); }
  }

  /** What forwarding can offer for `r` from one later stage, seen as a retired instruction. */
  lemma StageOffers(p: Program, a: Arch, r: Reg, w: WReg)
    requires a.regs.Valid() && Behaves(p, a) && HoldsW(p, a, w) && w.status != BUB
    ensures SeqStep(p, a).regs.Read(r) ==
      if w.ws.wEnable && w.dst == r && r != XZR then WriteValue(w) else a.regs.Read(r)
  {
    hide SeqW, Halted;
    RegisterAfter(p, a, r);
  }
}
