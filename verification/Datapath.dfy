/** The five pipeline registers and what each stage computes from them. */
module Datapath {
  import opened Words
  import opened Alu
  import opened Isa
  import opened MemorySystem

  datatype FReg = FReg(predPC: Word, status: Status)

  /** `value` is the union field that carries the next sequential PC or ADRP's result. */
  datatype DReg = DReg(bits: Insn, op: Op, format: Format, value: Word, status: Status)

  datatype XReg = XReg(op: Op, value: Word, xs: XSigs, ms: MSigs, ws: WSigs, aluOp: AluOp, cond: Cond,
                       valA: Word, valB: Word, imm: Word, hw: nat, dst: Reg, status: Status)

  datatype MReg = MReg(op: Op, value: Word, condHolds: bool, ms: MSigs, ws: WSigs,
                       valB: Word, dst: Reg, valEx: Word, status: Status)

  datatype WReg = WReg(op: Op, ws: WSigs, dst: Reg, valEx: Word, valMem: Word, status: Status)

  // A register filled with zeros, which is how a bubble is made.

  const NO_X := XSigs(false, false, false)
  const NO_M := MSigs(false, false)
  const NO_W := WSigs(false, false, false)

  const F_BUBBLE := FReg(0, BUB)
  const D_BUBBLE := DReg(0, NOP, FormatError, 0, BUB)
  const X_BUBBLE := XReg(NOP, 0, NO_X, NO_M, NO_W, PLUS_OP, EQ, 0, 0, 0, 0, 0, BUB)
  const M_BUBBLE := MReg(NOP, 0, false, NO_M, NO_W, 0, 0, 0, BUB)
  const W_BUBBLE := WReg(NOP, NO_W, 0, 0, 0, BUB)

  /** The general registers and the stack pointer. */
  datatype Regs = Regs(gpr: seq<Word>, sp: Word) {
    predicate Valid() {
      |gpr| == 31
    }

    function Read(r: Reg): Word
      requires Valid()
    {
      if r == XZR then 0 else if r == SP then sp else gpr[r]
    }

    function Write(r: Reg, v: Word): (r': Regs)
      requires Valid()
      ensures r'.Valid()
    {
      if r == XZR then this
      else if r == SP then this.(sp := v)
      else this.(gpr := gpr[r := v])
    }
  }

  // Fetch.

  const HALT_BITS: Insn := 0xD440_0000

  predicate FetchFault(cfg: Config, pc: Word) {
    !InText(cfg, pc) || pc % 4 != 0
  }

  function FetchOp(cfg: Config, bits: Insn, pc: Word): Op {
    if FetchFault(cfg, pc) then ERROR else OpOf(bits)
  }

  function FetchStatus(op: Op): Status {
    if op == ERROR then INS else if op == HLT then STOP else AOK
  }

  /** The instruction fetched at a non-zero `pc`, where memory holds `bits`. */
  function FetchAt(cfg: Config, bits: Insn, pc: Word): DReg {
    var op := FetchOp(cfg, bits, pc);
    DReg(bits, op, FormatOf(op), if op == ADRP then AdrpValue(pc, bits) else Wrap(pc + 4), FetchStatus(op))
  }

  /** Where fetch goes after `pc` unless told otherwise. */
  function NextPC(cfg: Config, bits: Insn, pc: Word): Word {
    PredictPC(pc, bits, FetchOp(cfg, bits, pc))
  }

  /** The HLT that fetch makes up once the program is over. */
  function HaltReg(value: Word): DReg {
    DReg(HALT_BITS, HLT, FormatS, value, STOP)
  }

  // Decode.

  function Sources(d: DReg): Operands {
    OperandsOf(d.bits, d.op, d.format)
  }

  function Decode(d: DReg, valA: Word, valB: Word): XReg {
    var s := ControlOf(d.op);
    XReg(d.op, d.value, s.x, s.m, s.w, AluOpOf(d.op), CondOf(d.bits), valA, valB,
         ImmediateOf(d.bits, d.op), HwOf(d.bits), Sources(d).dst, d.status)
  }

  // Execute.

  function OperandA(x: XReg): Word {
    if x.xs.valaSel then x.value else x.valA
  }

  function OperandB(x: XReg): Word {
    if x.xs.valbSel then x.valB else x.imm
  }

  function ExecuteFlags(x: XReg, nzcv: Flags): Flags {
    AluFlags(x.aluOp, OperandA(x), OperandB(x), x.hw, x.xs.setFlags, nzcv)
  }

  function Execute(x: XReg, nzcv: Flags): MReg {
    MReg(x.op, x.value, CondHolds(x.cond, ExecuteFlags(x, nzcv)), x.ms, x.ws, x.valB, x.dst,
         AluResult(x.aluOp, OperandA(x), OperandB(x), x.hw), x.status)
  }

  // Memory and writeback.

  predicate AddressFault(cfg: Config, m: MReg) {
    (m.ms.read || m.ms.write) && !IsSpecial(m.valEx) && !(InData(cfg, m.valEx) && m.valEx % 8 == 0)
  }

  function MemoryOut(cfg: Config, m: MReg, valMem: Word): WReg {
    WReg(m.op, m.ws, m.dst, m.valEx, valMem, if AddressFault(cfg, m) then ADR else m.status)
  }

  function WriteValue(w: WReg): Word {
    if w.ws.wvalSel then w.valMem else w.valEx
  }

  function WriteRegs(regs: Regs, w: WReg): (r: Regs)
    requires regs.Valid()
    ensures r.Valid()
  {
    if w.ws.wEnable && w.status == AOK then regs.Write(w.dst, WriteValue(w)) else regs
  }
}
