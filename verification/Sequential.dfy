/** The machine the pipeline has to behave like: one instruction at a time, from fetch
    to writeback, with no overlap at all. */
module Sequential {
  import opened Words
  import opened Alu
  import opened Isa
  import opened FlatMemory
  import opened MemorySystem
  import opened Datapath

  datatype Arch = Arch(regs: Regs, nzcv: Flags, pc: Word, mem: Mem, output: seq<Word>)

  /** The program: the 32 bits meant to be at each address. */
  type Code = Word -> Insn

  /** A program together with the memory layout it runs in. */
  datatype Program = Program(cfg: Config, code: Code)

  // What the instruction at `a` puts into each pipeline register.

  function SeqD(p: Program, a: Arch): DReg {
    if a.pc == 0 then HaltReg(0) else FetchAt(p.cfg, p.code(a.pc), a.pc)
  }

  /** There is no legal instruction at `a`. */
  predicate Illegal(p: Program, a: Arch) {
    SeqD(p, a).op == ERROR
  }

  /** The machine stops here, at a HLT or at an illegal instruction. */
  predicate Halted(p: Program, a: Arch) {
    SeqD(p, a).op == HLT || Illegal(p, a)
  }

  function SeqX(p: Program, a: Arch): XReg
    requires a.regs.Valid()
  {
    var d := SeqD(p, a);
    var o := Sources(d);
    Decode(d, a.regs.Read(o.src1), a.regs.Read(o.src2))
  }

  function SeqM(p: Program, a: Arch): MReg
    requires a.regs.Valid()
  {
    Execute(SeqX(p, a), a.nzcv)
  }

  /** The word the instruction in memory reads, if it is a load. */
  function LoadFor(cfg: Config, mem: Mem, m: MReg): Word {
    if m.ms.read && DataWord(cfg, m.valEx) then Load64(mem, m.valEx) else 0
  }

  /** Memory after the instruction in memory, if it is a store. */
  function StoreFor(cfg: Config, mem: Mem, m: MReg): Mem {
    if m.ms.write && DataWord(cfg, m.valEx) then Store64(mem, m.valEx, m.valB) else mem
  }

  function SeqW(p: Program, a: Arch): WReg
    requires a.regs.Valid()
  {
    var m := SeqM(p, a);
    MemoryOut(p.cfg, m, LoadFor(p.cfg, a.mem, m))
  }

  // What it does to the machine.

  function MemAfter(p: Program, a: Arch): Mem
    requires a.regs.Valid()
  {
    StoreFor(p.cfg, a.mem, SeqM(p, a))
  }

  function OutputAfter(p: Program, a: Arch): seq<Word>
    requires a.regs.Valid()
  {
    var m := SeqM(p, a);
    if m.ms.write && m.valEx == IO_CHAR_ADDR then a.output + [m.valB] else a.output
  }

  predicate Mispredicted(m: MReg) {
    m.op == B_COND && !m.condHolds
  }

  function PCAfter(p: Program, a: Arch): Word
    requires a.regs.Valid()
  {
    var x := SeqX(p, a);
    if x.op == RET then x.valA
    else if Mispredicted(SeqM(p, a)) then x.value
    else NextPC(p.cfg, p.code(a.pc), a.pc)
  }

  /** One instruction; a machine that has stopped stays where it is. */
  function SeqStep(p: Program, a: Arch): (a': Arch)
    requires a.regs.Valid()
    ensures a'.regs.Valid()
  {
    if Halted(p, a) then a
    else Arch(WriteRegs(a.regs, SeqW(p, a)), ExecuteFlags(SeqX(p, a), a.nzcv),
              PCAfter(p, a), MemAfter(p, a), OutputAfter(p, a))
  }

  function SeqRun(p: Program, a0: Arch, n: nat): (a: Arch)
    requires a0.regs.Valid()
    ensures a.regs.Valid()
  {
    if n == 0 then a0 else SeqStep(p, SeqRun(p, a0, n - 1))
  }

  /** The data access of the instruction, if any, is to an ordinary data word (or a store
      to the console or to the null address). */
  predicate Behaves(p: Program, a: Arch)
    requires a.regs.Valid()
  {
    var m := SeqM(p, a);
    && (m.ms.read ==> DataWord(p.cfg, m.valEx))
    && (m.ms.write ==> DataWord(p.cfg, m.valEx) || m.valEx == IO_CHAR_ADDR || m.valEx == NULL_ADDR)
  }

  /** Every data access of the sequential run behaves. */
  ghost predicate DataBehaves(p: Program, a0: Arch)
    requires a0.regs.Valid()
  {
    forall n: nat :: Behaves(p, SeqRun(p, a0, n))
  }

  // Where fetch goes, wrong paths included.

  /** The instruction at `a` transfers control to where fetch does not look next. */
  predicate Diverts(p: Program, a: Arch)
    requires a.regs.Valid()
  {
    !Halted(p, a) && (SeqX(p, a).op == RET || Mispredicted(SeqM(p, a)))
  }

  /** Where fetch looks after `pc`. */
  function After(p: Program, pc: Word): Word {
    NextPC(p.cfg, p.code(pc), pc)
  }

  /** Fetch stops at `pc`, at a HLT or at no instruction. */
  predicate StopsFetch(p: Program, pc: Word) {
    pc == 0 || FetchStatus(FetchOp(p.cfg, p.code(pc), pc)) != AOK
  }

  /** The instruction at `pc` is not read through a data cache. */
  predicate Below(cfg: Config, pc: Word) {
    pc < cfg.dataStart || IsSpecial(pc)
  }

  /** Fetch stays out of the data for the instruction at `a` and for what it fetches on the
      wrong path behind it: one address behind a RET, two behind a wrongly predicted branch
      unless the first ends it. */
  predicate PathBelow(p: Program, a: Arch)
    requires a.regs.Valid()
  {
    && Below(p.cfg, a.pc)
    && (Diverts(p, a) ==>
          var wrong := After(p, a.pc);
          && Below(p.cfg, wrong)
          && (SeqX(p, a).op != RET && !StopsFetch(p, wrong) ==> Below(p.cfg, After(p, wrong))))
  }

  ghost predicate FetchesText(p: Program, a0: Arch)
    requires a0.regs.Valid()
  {
    forall n: nat :: PathBelow(p, SeqRun(p, a0, n))
  }

  /** What the theorems ask of a program: its data accesses behave and, if there is a
      cache, fetch stays out of the data. */
  ghost predicate WellBehaved(p: Program, a0: Arch)
    requires a0.regs.Valid()
  {
    DataBehaves(p, a0) && (p.cfg.cache.WithCache? ==> FetchesText(p, a0))
  }
}
