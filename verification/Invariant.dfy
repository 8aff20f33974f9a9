/** What holds between any two clock cycles: each pipeline register holds the
    instruction it should hold of the sequential run, a bubble, or - in fetch and decode,
    behind an unresolved transfer of control - something that will be squashed. */
module Invariant {
  import opened Words
  import opened Isa
  import opened FlatMemory
  import opened MemorySystem
  import opened Datapath
  import opened Sequential
  import opened Pipeline

  /** The sequential machine after `i` instructions. */
  function At(p: Program, a0: Arch, i: nat): (a: Arch)
    requires a0.regs.Valid()
    ensures a.regs.Valid()
  {
    SeqRun(p, a0, i)
  }

  function One(b: bool): nat {
    if b then 1 else 0
  }

  // An instruction that does nothing from its stage on: a bubble, or one that stops the machine.

  predicate InertX(x: XReg) {
    && x.op != LDUR && x.op != B_COND && x.op != RET
    && !x.xs.setFlags && !x.ms.read && !x.ms.write && !x.ws.wEnable
  }

  predicate InertM(m: MReg) {
    m.op != B_COND && !m.ms.read && !m.ms.write && !m.ws.wEnable
  }

  predicate InertW(w: WReg) {
    !w.ws.wEnable
  }

  // The register holds the instruction that starts from `a`, or is empty.

  /** The status of an instruction that ends the run. */
  predicate Ends(st: Status) {
    st == STOP || st == INS
  }

  /** How the end of the program shows: an illegal instruction has its own status, unless
      fetch had to let go of it. */
  predicate StopStatus(p: Program, a: Arch, st: Status) {
    st == STOP || (st == INS && Illegal(p, a))
  }

  predicate HoldsD(p: Program, a: Arch, d: DReg) {
    if Halted(p, a) then
      StopStatus(p, a, d.status)
      && (if d.status == STOP then d.op == HLT && d.format == FormatS else d.op == ERROR && d.format == FormatError)
    else d == SeqD(p, a)
  }

  predicate HoldsX(p: Program, a: Arch, x: XReg)
    requires a.regs.Valid()
  {
    if x.status == BUB then InertX(x)
    else if Halted(p, a) then StopStatus(p, a, x.status) && InertX(x)
    else x == SeqX(p, a)
  }

  predicate HoldsM(p: Program, a: Arch, m: MReg)
    requires a.regs.Valid()
  {
    if m.status == BUB then InertM(m)
    else if Halted(p, a) then StopStatus(p, a, m.status) && InertM(m)
    else m == SeqM(p, a)
  }

  predicate HoldsW(p: Program, a: Arch, w: WReg)
    requires a.regs.Valid()
  {
    if w.status == BUB then InertW(w)
    else if Halted(p, a) then StopStatus(p, a, w.status) && InertW(w)
    else w == SeqW(p, a)
  }

  // Where each register is in program order; `k` instructions have retired.

  function IndexM(s: Cpu, k: nat): nat { k + One(s.wOut.status != BUB) }
  function IndexX(s: Cpu, k: nat): nat { IndexM(s, k) + One(s.mOut.status != BUB) }
  function IndexD(s: Cpu, k: nat): nat { IndexX(s, k) + One(s.xOut.status != BUB) }
  function IndexF(s: Cpu, k: nat): nat { IndexD(s, k) + One(OnPathD(s)) }

  /** The branch in execute was predicted wrongly, so decode holds a wrong-path instruction. */
  predicate WrongPathD(s: Cpu) {
    Mispredicted(Execute(s.xOut, s.nzcv))
  }

  predicate OnPathD(s: Cpu) {
    s.dOut.status != BUB && !WrongPathD(s)
  }

  /** Fetch is following the wrong path in this cycle. */
  predicate WrongPathF(p: Program, a0: Arch, s: Cpu, k: nat)
    requires a0.regs.Valid()
  {
    WrongPathD(s) || (OnPathD(s) && Diverts(p, At(p, a0, IndexD(s, k))))
  }

  predicate FetchReady(p: Program, a0: Arch, s: Cpu, k: nat)
    requires a0.regs.Valid()
  {
    var next := At(p, a0, IndexF(s, k));
    !WrongPathF(p, a0, s, k) && !Redirected(s) ==>
      if Ends(s.fIn.status) then Halted(p, next) && StopStatus(p, next, s.fIn.status)
      else s.fOut.predPC == next.pc
  }

  /** After a redirection the registers behind it are empty. */
  predicate Squashed(s: Cpu) {
    && (Mispredicted(s.mOut) ==> s.xOut.status == BUB && s.dOut.status == BUB)
    && (s.xOut.op == RET ==> s.dOut.status == BUB)
    && (s.dOut.status == BUB ==> s.dOut == D_BUBBLE && (s.xOut.status == BUB || s.xOut.op == RET))
  }

  predicate NoFault(s: Cpu) {
    FAULT !in {s.fCtl, s.dCtl, s.xCtl, s.mCtl, s.wCtl}
  }

  ghost predicate DataAgrees(p: Program, a0: Arch, s: Cpu, k: nat)
    requires a0.regs.Valid() && MemOk(p.cfg, s.mem)
  {
    && s.regs == At(p, a0, k).regs
    && s.nzcv == At(p, a0, IndexX(s, k)).nzcv
    && View(p.cfg, s.mem) == At(p, a0, IndexM(s, k)).mem
    && s.mem.output == At(p, a0, IndexM(s, k)).output
  }

  /** The text is in memory where fetch reads it, and the cache holds no other version of it. */
  ghost predicate Loaded(p: Program, ms: MemSys)
    requires MemOk(p.cfg, ms)
  {
    && p.cfg.dataStart % 4 == 0
    && (forall pc: Word | !FetchFault(p.cfg, pc) :: Load32(ms.raw, pc) == p.code(pc))
    && (forall b: Word | b < p.cfg.dataStart :: View(p.cfg, ms)[b] == ms.raw[b])
  }

  /** Everything is where it should be. */
  ghost predicate Placed(p: Program, a0: Arch, s: Cpu, k: nat)
    requires a0.regs.Valid()
  {
    && s.Ok(p.cfg) && MemOk(p.cfg, s.mem) && NoFault(s) && Loaded(p, s.mem)
    && DataAgrees(p, a0, s, k)
    && HoldsW(p, At(p, a0, k), s.wOut)
    && HoldsM(p, At(p, a0, IndexM(s, k)), s.mOut)
    && HoldsX(p, At(p, a0, IndexX(s, k)), s.xOut)
    && (OnPathD(s) ==> HoldsD(p, At(p, a0, IndexD(s, k)), s.dOut))
    && (s.mem.busy ==> (s.mOut.ms.read || s.mOut.ms.write) && DataWord(p.cfg, s.mOut.valEx))
    && Squashed(s)
    && FetchReady(p, a0, s, k)
  }

  /** The invariant: besides, fetch is about to leave the data cache alone. */
  ghost predicate Inv(p: Program, a0: Arch, s: Cpu, k: nat)
    requires a0.regs.Valid()
  {
    Placed(p, a0, s, k) && Quiet(p, s)
  }
}
