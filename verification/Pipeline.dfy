/** One clock cycle of the five-stage pipeline: the five stages, forwarding, hazard
    control, the clocked commits and the latches. */
module Pipeline {
  import opened Words
  import opened Alu
  import opened Isa
  import opened MemorySystem
  import opened Datapath
  import opened Sequential

  datatype Ctl = LOAD | FAULT | BUBBLE | STALL

  datatype Cpu = Cpu(
    regs: Regs, nzcv: Flags, pc: Word, status: Status,
    fIn: FReg, fOut: FReg, dIn: DReg, dOut: DReg, xIn: XReg, xOut: XReg,
    mIn: MReg, mOut: MReg, wIn: WReg, wOut: WReg,
    fCtl: Ctl, dCtl: Ctl, xCtl: Ctl, mCtl: Ctl, wCtl: Ctl,
    fPC: Word, dSrc1: Reg, dSrc2: Reg, xNzcv: Flags, xSetFlags: bool, mPC: Word, wVal: Word, deassert: bool,
    mem: MemSys)
  {
    predicate Ok(cfg: Config) {
      regs.Valid() && MemShaped(cfg, mem)
    }
  }

  // Fetch.

  /** A RET in execute or a wrongly predicted branch in memory decides the next PC. */
  predicate Redirected(s: Cpu) {
    s.xOut.op == RET || Mispredicted(s.mOut)
  }

  function SelectPC(s: Cpu): Word {
    if s.dOut.op == RET && s.fOut.predPC == 0 then 0
    else if s.xOut.op == RET then s.xOut.valA
    else if Mispredicted(s.mOut) then s.mOut.value
    else s.fOut.predPC
  }

  /** The status fetch goes by: a redirection clears what a wrong path left behind. */
  function StickyStatus(s: Cpu): Status {
    if SelectPC(s) != 0 && Redirected(s) then AOK else s.fIn.status
  }

  predicate FetchHalts(s: Cpu) {
    SelectPC(s) == 0 || StickyStatus(s) == STOP || StickyStatus(s) == INS
  }

  /** The word memory holds where fetch looks. */
  function FetchWord(p: Program, s: Cpu): Insn {
    InstrBits(p.cfg, s.mem, SelectPC(s))
  }

  function Fetched(p: Program, s: Cpu): DReg {
    if FetchHalts(s) then HaltReg(s.dIn.value) else FetchAt(p.cfg, FetchWord(p, s), SelectPC(s))
  }

  /** The memory system after fetch has read from it. */
  function FetchMem(p: Program, s: Cpu): (ms: MemSys)
    requires MemShaped(p.cfg, s.mem)
    ensures MemShaped(p.cfg, ms)
  {
    if FetchHalts(s) then s.mem else InstrRead(p.cfg, s.mem, SelectPC(s))
  }

  function FetchStage(p: Program, s: Cpu): (s': Cpu)
    requires MemShaped(p.cfg, s.mem)
    ensures MemShaped(p.cfg, s'.mem)
  {
    var d := Fetched(p, s);
    s.(dIn := d,
       fPC := if FetchHalts(s) then s.fPC else NextPC(p.cfg, FetchWord(p, s), SelectPC(s)),
       fIn := s.fIn.(status := if d.status == AOK then StickyStatus(s) else d.status),
       fOut := s.fOut.(status := d.status),
       mem := FetchMem(p, s))
  }

  /** Fetch does not go through the data cache in this cycle. */
  predicate Quiet(p: Program, s: Cpu) {
    FetchHalts(s) || !FetchCached(p.cfg, SelectPC(s))
  }

  // Decode, execute, memory and writeback.

  function DecodeStage(s: Cpu): Cpu
    requires s.regs.Valid()
  {
    var o := Sources(s.dOut);
    s.(xIn := Decode(s.dOut, s.regs.Read(o.src1), s.regs.Read(o.src2)), dSrc1 := o.src1, dSrc2 := o.src2)
  }

  function ExecuteStage(s: Cpu): Cpu {
    s.(mIn := Execute(s.xOut, s.nzcv), xNzcv := ExecuteFlags(s.xOut, s.nzcv), xSetFlags := s.xOut.xs.setFlags)
  }

  /** The data access of the instruction in memory: the memory after it, and the word read. */
  function DataAccess(cfg: Config, ms: MemSys, m: MReg): (r: (MemSys, Word))
    requires MemShaped(cfg, ms)
    ensures MemShaped(cfg, r.0)
  {
    var (ms', v) := if m.ms.read then DataRead(cfg, ms, m.valEx) else (ms, 0);
    (if m.ms.write then DataWrite(cfg, ms', m.valEx, m.valB) else ms', v)
  }

  predicate IsFault(st: Status) {
    st == INS || st == ADR
  }

  function MemoryStage(p: Program, s: Cpu): (s': Cpu)
    requires MemShaped(p.cfg, s.mem)
    ensures MemShaped(p.cfg, s'.mem)
  {
    var (ms, v) := DataAccess(p.cfg, s.mem, s.mOut);
    var w := MemoryOut(p.cfg, s.mOut, v);
    var here := Wrap(s.mOut.value - 4);
    s.(mem := ms, wIn := w, mPC := here, fPC := if IsFault(w.status) then here else s.fPC)
  }

  function WritebackStage(s: Cpu): Cpu {
    s.(wVal := WriteValue(s.wOut))
  }

  function RunStages(p: Program, s: Cpu): (s': Cpu)
    requires s.Ok(p.cfg)
    ensures s'.Ok(p.cfg)
  {
    WritebackStage(MemoryStage(p, ExecuteStage(DecodeStage(FetchStage(p, s)))))
  }

  // Forwarding.

  /** The newest value of register `src`: execute before memory before writeback. */
  function ForwardOne(s: Cpu, src: Reg, fromFile: Word): Word {
    if s.xOut.ws.wEnable && s.xOut.dst == src && src != XZR then s.mIn.valEx
    else if s.mOut.ws.wEnable && s.mOut.dst == src && src != XZR then
      (if s.mOut.ws.wvalSel then s.wIn.valMem else s.mOut.valEx)
    else if s.wOut.ws.wEnable && s.wOut.dst == src && src != XZR then
      (if s.wOut.ws.wvalSel then s.wOut.valMem else s.wOut.valEx)
    else fromFile
  }

  function Forward(s: Cpu): Cpu {
    s.(xIn := s.xIn.(valA := ForwardOne(s, s.dSrc1, s.xIn.valA), valB := ForwardOne(s, s.dSrc2, s.xIn.valB)))
  }

  // Hazards.

  function ControlStage(before: Ctl, bubble: bool, stall: bool): Ctl {
    if (bubble && stall) || before == FAULT then FAULT
    else if bubble then BUBBLE
    else if stall then STALL
    else LOAD
  }

  predicate LoadUse(x: XReg, src1: Reg, src2: Reg) {
    x.op == LDUR && x.dst != XZR && (x.dst == src1 || x.dst == src2)
  }

  /** What is asked of one pipeline register. */
  datatype Request = Request(bubble: bool, stall: bool)

  /** What the hazard unit asks of all five registers, and whether it forbids writing the flags. */
  datatype Requests = Requests(noFlags: bool, f: Request, d: Request, x: Request, m: Request, w: Request)

  function Requested(s: Cpu): Requests {
    if s.mem.busy then
      var hold := Request(false, true);
      Requests(true, hold, hold, hold, hold, Request(true, false))
    else
      var fStall := s.fOut.status == STOP || s.fOut.status == INS;
      var retFromMain := s.dOut.op == RET && s.xIn.valA == 0;
      var ret := s.dOut.op == RET && !retFromMain;
      var mispred := s.xOut.op == B_COND && !s.mIn.condHolds;
      var loadUse := LoadUse(s.xOut, s.dSrc1, s.dSrc2);
      Requests(IsFault(s.wIn.status) || IsFault(s.mOut.status),
               Request(retFromMain && !fStall, fStall || loadUse || ret),
               Request((ret && !loadUse) || mispred || retFromMain, loadUse),
               Request(loadUse || mispred, false),
               Request(false, false), Request(false, false))
  }

  function Control(s: Cpu, r: Requests): Cpu {
    s.(deassert := r.noFlags,
       fCtl := ControlStage(s.fCtl, r.f.bubble, r.f.stall),
       dCtl := ControlStage(s.dCtl, r.d.bubble, r.d.stall),
       xCtl := ControlStage(s.xCtl, r.x.bubble, r.x.stall),
       mCtl := ControlStage(s.mCtl, r.m.bubble, r.m.stall),
       wCtl := ControlStage(s.wCtl, r.w.bubble, r.w.stall))
  }

  function HandleHazards(s: Cpu): Cpu {
    Control(s, Requested(s))
  }

  // Clocked state.

  function Commit(s: Cpu): (s': Cpu)
    requires s.regs.Valid()
    ensures s'.regs.Valid()
  {
    var pc := if IsFault(s.wIn.status) then s.mPC else s.fPC;
    s.(status := s.wOut.status,
       nzcv := if !s.deassert && s.xSetFlags then s.xNzcv else s.nzcv,
       regs := if s.wOut.ws.wEnable && s.wOut.status == AOK then s.regs.Write(s.wOut.dst, s.wVal) else s.regs,
       pc := pc,
       fIn := s.fIn.(predPC := pc))
  }

  function LatchOne<T>(ctl: Ctl, next: T, out: T, bubble: T): T {
    match ctl
    case LOAD => next
    case FAULT => bubble
    case BUBBLE => bubble
    case STALL => out
  }

  function Latch(s: Cpu): Cpu {
    s.(fOut := LatchOne(s.fCtl, s.fIn, s.fOut, F_BUBBLE),
       dOut := LatchOne(s.dCtl, s.dIn, s.dOut, D_BUBBLE),
       xOut := LatchOne(s.xCtl, s.xIn, s.xOut, X_BUBBLE),
       mOut := LatchOne(s.mCtl, s.mIn, s.mOut, M_BUBBLE),
       wOut := LatchOne(s.wCtl, s.wIn, s.wOut, W_BUBBLE),
       status := if FAULT in {s.fCtl, s.dCtl, s.xCtl, s.mCtl, s.wCtl} then STOP else s.status)
  }

  function Cycle(p: Program, s: Cpu): (s': Cpu)
    requires s.Ok(p.cfg)
    ensures s'.Ok(p.cfg)
  {
    Latch(Commit(HandleHazards(Forward(RunStages(p, s)))))
  }

  /** The machine before its first cycle: empty registers, and `entry` as the first PC. */
  function Boot(regs: Regs, nzcv: Flags, entry: Word, mem: MemSys): Cpu {
    Cpu(regs, nzcv, entry, BUB,
        F_BUBBLE, FReg(entry, AOK), D_BUBBLE, D_BUBBLE, X_BUBBLE, X_BUBBLE,
        M_BUBBLE, M_BUBBLE, W_BUBBLE, W_BUBBLE,
        BUBBLE, BUBBLE, BUBBLE, BUBBLE, BUBBLE,
        0, 0, 0, Flags(false, false, false, false), false, 0, 0, false, mem)
  }

  function Run(p: Program, s: Cpu, n: nat): (s': Cpu)
    requires s.Ok(p.cfg)
    ensures s'.Ok(p.cfg)
  {
    if n == 0 then s else Cycle(p, Run(p, s, n - 1))
  }
}
