/** What the datapath makes of each opcode, written down without control signals: which
    registers it reads, what it writes, which flags it sets and where it goes. */
module OpMeaning {
  import opened Words
  import opened Bits
  import opened Alu
  import opened Isa
  import opened FlatMemory
  import opened MemorySystem
  import opened Datapath
  import opened Sequential
  import opened ArmReference

  type RegNumber = r: nat | r <= 31

  /** The register an instruction writes and the value it writes there; `None` writes
      nothing. The last component says whether register 31 means the stack pointer. */
  datatype Result = None | Write(dst: RegNumber, value: Word, toSP: bool)

  predicate Yields(r: Result, v: Word) {
    r.Write? && r.value == v
  }

  function ResultOf(op: Op, bits: Insn, a: Arch, cfg: Config): Result
    requires a.regs.Valid()
  {
    var d, n, m := RegField(bits, 0), RegField(bits, 5), RegField(bits, 16);
    var x, y := GetZ(a.regs, n), GetZ(a.regs, m);
    var base := GetSP(a.regs, n);
    match op
    case ADD_RI => Write(d, Wrap(base + Field(bits, 10, 12)), true)
    case SUB_RI => Write(d, Wrap(base - Field(bits, 10, 12)), true)
    case ADDS_RR => Write(d, Wrap(x + y), false)
    case SUBS_RR => Write(d, Wrap(x - y), false)
    case ANDS_RR => Write(d, WordOp(And, x, y), false)
    case ORR_RR => Write(d, WordOp(Or, x, y), false)
    case EOR_RR => Write(d, WordOp(Xor, x, y), false)
    case MVN => Write(d, WordOp(Or, x, Complement(y)), false)
    case LSL_RI => Write(d, ShiftLeft(x, (64 - Field(bits, 16, 6)) % 64), false)
    case LSR_RI => Write(d, ShiftRight(x, Field(bits, 16, 6)), false)
    case ASR => Write(d, Wrap(Signed(x) / Pow2(Field(bits, 16, 6))), false)
    case LSL_RR => Write(d, ShiftLeft(x, y % 64), false)
    case LSR_RR => Write(d, ShiftRight(x, y % 64), false)
    case MOVZ => Write(d, ShiftLeft(Field16(bits), HwOf(bits)), false)
    case MOVK =>
      var keep := WordOp(And, GetZ(a.regs, d), Complement(ShiftLeft(0xFFFF, HwOf(bits))));
      Write(d, WordOp(Or, keep, ShiftLeft(Field16(bits), HwOf(bits))), false)
    case ADRP => Write(d, AdrpValue(a.pc, bits), true)
    case BL => Write(30, Wrap(a.pc + 4), false)
    case LDUR =>
      var addr := Wrap(base + SignedField(bits, 12, 9));
      Write(d, if DataWord(cfg, addr) then Load64(a.mem, addr) else 0, false)
    case _ => None
  }

  /** The general registers an instruction reads, by its opcode; number 31 is none of them. */
  predicate Reads(op: Op, bits: Insn, r: nat) {
    var d, n, m := RegField(bits, 0), RegField(bits, 5), RegField(bits, 16);
    && r < 31
    && match op
       case LDUR | ADD_RI | SUB_RI | LSL_RI | LSR_RI | ASR | RET => r == n
       case STUR => r == n || r == d
       case MOVK => r == d
       case ADDS_RR | CMN_RR | SUBS_RR | CMP_RR | MVN | ORR_RR | EOR_RR | ANDS_RR | TST_RR | LSL_RR | LSR_RR =>
         r == n || r == m
       case _ => false
  }

  /** `first` loads a general register that `next` reads. */
  predicate LoadThenUse(first: Insn, next: Insn) {
    OpOf(first) == LDUR && Reads(OpOf(next), next, RegField(first, 0))
  }

  /** The instruction at `b` reads what the one at `a` loads. */
  predicate Uses(p: Program, a: Arch, b: Arch) {
    !Halted(p, a) && !Halted(p, b) && LoadThenUse(p.code(a.pc), p.code(b.pc))
  }

  function RegsAfter(r: Result, regs: Regs): Regs
    requires regs.Valid()
  {
    match r
    case None => regs
    case Write(d, v, toSP) => if toSP then SetSP(regs, d, v) else SetZ(regs, d, v)
  }

  function FlagsFor(op: Op, bits: Insn, a: Arch): Flags
    requires a.regs.Valid()
  {
    var x, y := GetZ(a.regs, RegField(bits, 5)), GetZ(a.regs, RegField(bits, 16));
    match op
    case ADDS_RR | CMN_RR => FlagsOfSum(x, y)
    case SUBS_RR | CMP_RR => FlagsOfDifference(x, y)
    case ANDS_RR | TST_RR => FlagsOfBits(WordOp(And, x, y))
    case _ => a.nzcv
  }

  function NextAddress(op: Op, bits: Insn, a: Arch): Word
    requires a.regs.Valid()
  {
    match op
    case B | BL => Wrap(a.pc + SignedField(bits, 0, 26) * 4)
    case B_COND =>
      if ConditionHolds(Field(bits, 0, 4), a.nzcv) then Wrap(a.pc + SignedField(bits, 5, 19) * 4) else Wrap(a.pc + 4)
    case RET => GetSP(a.regs, RegField(bits, 5))
    case _ => Wrap(a.pc + 4)
  }

  /** One instruction, by its opcode. */
  function OpStep(p: Program, a: Arch): Arch
    requires a.regs.Valid() && !Halted(p, a)
  {
    hide OpOf, ResultOf, FlagsFor, NextAddress, RegsAfter, SignedField, GetSP, GetZ, Store64, RegField;
    var bits := p.code(a.pc);
    var op := OpOf(bits);
    var addr := Wrap(GetSP(a.regs, RegField(bits, 5)) + SignedField(bits, 12, 9));
    var data := GetZ(a.regs, RegField(bits, 0));
    Arch(RegsAfter(ResultOf(op, bits, a, p.cfg), a.regs), FlagsFor(op, bits, a), NextAddress(op, bits, a),
         if op == STUR && DataWord(p.cfg, addr) then Store64(a.mem, addr, data) else a.mem,
         if op == STUR && addr == IO_CHAR_ADDR then a.output + [data] else a.output)
  }
}
