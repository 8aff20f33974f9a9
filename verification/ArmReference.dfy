/** The meaning the Arm architecture gives to the instructions of the emulator's opcode
    table, decoded on its own terms: by the fields of the encoding classes, without
    aliases, and with every field that belongs to an encoding. */
module ArmReference {
  import opened Words
  import opened Bits
  import opened Alu
  import opened Isa
  import opened FlatMemory
  import opened MemorySystem
  import opened Datapath
  import opened Sequential

  // Register 31 is the stack pointer for some operands and zero for the others.

  function GetZ(regs: Regs, r: Reg): Word
    requires regs.Valid() && r <= 31
  {
    if r == 31 then 0 else regs.gpr[r]
  }

  function GetSP(regs: Regs, r: Reg): Word
    requires regs.Valid() && r <= 31
  {
    if r == 31 then regs.sp else regs.gpr[r]
  }

  function SetZ(regs: Regs, r: Reg, v: Word): Regs
    requires regs.Valid() && r <= 31
  {
    if r == 31 then regs else regs.(gpr := regs.gpr[r := v])
  }

  function SetSP(regs: Regs, r: Reg, v: Word): Regs
    requires regs.Valid() && r <= 31
  {
    if r == 31 then regs.(sp := v) else regs.(gpr := regs.gpr[r := v])
  }

  // Flags, by what they mean.

  predicate Fits(x: int) {
    -TWO63 <= x < TWO63
  }

  function FlagsOfSum(x: Word, y: Word): Flags {
    Flags(Signed(Wrap(x + y)) < 0, Wrap(x + y) == 0, x + y >= TWO64, !Fits(Signed(x) + Signed(y)))
  }

  function FlagsOfDifference(x: Word, y: Word): Flags {
    Flags(Signed(Wrap(x - y)) < 0, x == y, x >= y, !Fits(Signed(x) - Signed(y)))
  }

  function FlagsOfBits(r: Word): Flags {
    Flags(Signed(r) < 0, r == 0, false, false)
  }

  /** A condition, by its four bits: seven tests of the flags and their opposites, of
      which the last is always true, and so is what should be its opposite. */
  predicate ConditionHolds(field: nat, f: Flags) {
    var test := match field / 2
      case 0 => f.z
      case 1 => f.c
      case 2 => f.n
      case 3 => f.v
      case 4 => f.c && !f.z
      case 5 => f.n == f.v
      case 6 => f.n == f.v && !f.z
      case _ => true;
    if field % 2 == 1 && field != 15 then !test else test
  }

  // Encodings.

  datatype TwoSource = UDIV | SDIV | LSLV | LSRV | ASRV | RORV

  /** Whether a load or store moves its base register, and when. */
  datatype Index = Offset | PostIndex | PreIndex

  type SixBits = n: nat | n < 64

  datatype A64 =
    | AddSubShifted(sub: bool, amount: SixBits)
    | LogicalShifted(op: BoolOp, invert: bool, setFlags: bool, amount: SixBits)
    | AddSubImmediate(sub: bool)
    | MoveWide(keep: bool)
    | Bitfield(signed: bool, immr: SixBits, imms: SixBits)
    | DataTwoSource(f: TwoSource)
    | LoadStore(load: bool, index: Index)
    | PageAddress
    | Branch(link: bool)
    | BranchConditional
    | Return
    | Hint
    | Outside

  /** Bits 31, 30-29, 28-24 and 23-21, which tell the encoding classes apart. */
  datatype Class = Class(sf: nat, opc: nat, group: nat, low: nat)

  function Six(bits: Insn, from: nat): SixBits {
    assert Pow2(6) == 64;
    Field(bits, from, 6)
  }

  function ClassOf(bits: Insn): Class {
    var top := Field(bits, 21, 11);
    Class(top / 1024, top / 256 % 4, top / 8 % 32, top % 8)
  }

  function TwoSourceOf(bits: Insn): A64 {
    match Six(bits, 10)
    case 2 => DataTwoSource(UDIV)
    case 3 => DataTwoSource(SDIV)
    case 8 => DataTwoSource(LSLV)
    case 9 => DataTwoSource(LSRV)
    case 10 => DataTwoSource(ASRV)
    case 11 => DataTwoSource(RORV)
    case _ => Outside
  }

  /** Loads and stores of a doubleword at an unscaled offset. The unprivileged form does
      the same here; to write back to the register that is loaded or stored is unpredictable. */
  function LoadStoreOf(bits: Insn, load: bool): A64 {
    var writesBack := Field(bits, 10, 2) % 2 == 1;
    if !writesBack then LoadStore(load, Offset)
    else if RegField(bits, 5) != 31 && RegField(bits, 5) == RegField(bits, 0) then Outside
    else LoadStore(load, if Field(bits, 10, 2) == 1 then PostIndex else PreIndex)
  }

  /** The instruction, if it is one of the classes the emulator has an opcode for. */
  function A64Of(bits: Insn): A64 {
    var c := ClassOf(bits);
    var amount := Six(bits, 10);
    if c.group == 0x0B && c.sf == 1 && c.low == 0 && c.opc % 2 == 1 then
      AddSubShifted(c.opc == 3, amount)
    else if c.group == 0x0A && c.sf == 1 && c.low == 0 && c.opc == 1 then LogicalShifted(Or, false, false, amount)
    else if c.group == 0x0A && c.sf == 1 && c.low == 1 && c.opc == 1 then LogicalShifted(Or, true, false, amount)
    else if c.group == 0x0A && c.sf == 1 && c.low == 0 && c.opc == 2 then LogicalShifted(Xor, false, false, amount)
    else if c.group == 0x0A && c.sf == 1 && c.low == 0 && c.opc == 3 then LogicalShifted(And, false, true, amount)
    else if c.group == 0x11 && c.sf == 1 && c.low < 2 && c.opc % 2 == 0 then AddSubImmediate(c.opc == 2)
    else if c.group == 0x12 && c.sf == 1 && c.low >= 4 && c.opc >= 2 then MoveWide(c.opc == 3)
    else if c.group == 0x13 && c.sf == 1 && (c.low == 2 || c.low == 3) && c.opc % 2 == 0 then
      Bitfield(c.opc == 0, Six(bits, 16), amount)
    else if c.group == 0x1A && c.sf == 1 && c.low == 6 && c.opc == 0 then TwoSourceOf(bits)
    else if c.group == 0x18 && c.sf == 1 && c.opc == 3 && (c.low == 0 || c.low == 2) then LoadStoreOf(bits, c.low == 2)
    else if c.group == 0x10 && c.sf == 1 then PageAddress
    else if c.group / 4 == 5 && c.opc == 0 then Branch(c.sf == 1)
    else if c.group == 0x14 && c.sf == 0 && c.opc == 2 && Field(bits, 4, 1) == 0 then BranchConditional
    else if bits / 0x400 == 0x3597C0 && bits % 32 == 0 then Return
    else if bits / 0x1000 == 0xD5032 && bits % 32 == 31 then Hint
    else Outside
  }

  /** The general registers an instruction reads; number 31 is none of them. */
  predicate ReadsGeneral(bits: Insn, r: nat) {
    var d, n, m := RegField(bits, 0), RegField(bits, 5), RegField(bits, 16);
    && r < 31
    && match A64Of(bits)
       case AddSubShifted(_, _) => r == n || r == m
       case LogicalShifted(_, _, _, _) => r == n || r == m
       case AddSubImmediate(_) => r == n
       case MoveWide(keep) => keep && r == d
       case Bitfield(_, _, _) => r == n
       case DataTwoSource(_) => r == n || r == m
       case LoadStore(load, _) => r == n || (!load && r == d)
       case Return => r == n
       case PageAddress | Branch(_) | BranchConditional | Hint | Outside => false
  }

  // Values.

  function Divide(x: int, y: int): int
    requires y != 0
  {
    var q := (if x < 0 then -x else x) / (if y < 0 then -y else y);
    if (x < 0) == (y < 0) then q else -q
  }

  function RotateRight(x: Word, k: nat): Word
    requires k < 64
  {
    Wrap(x / Pow2(k) + x % Pow2(k) * Pow2(64 - k))
  }

  function TwoSourceValue(f: TwoSource, x: Word, y: Word): Word {
    match f
    case UDIV => if y == 0 then 0 else Wrap(x / y)
    case SDIV => if y == 0 then 0 else Wrap(Divide(Signed(x), Signed(y)))
    case LSLV => ShiftLeft(x, y % 64)
    case LSRV => ShiftRight(x, y % 64)
    case ASRV => Wrap(Signed(x) / Pow2(y % 64))
    case RORV => RotateRight(x, y % 64)
  }

  /** The width of the field a bitfield move takes. */
  function BitfieldWidth(immr: SixBits, imms: SixBits): (w: nat)
    ensures w >= 1
  {
    if imms >= immr then imms - immr + 1 else imms + 1
  }

  /** A bitfield move takes bits `immr` to `imms` down to the bottom, or the low `imms` + 1
      bits up to bit 64 - `immr`, with zeros or copies of the sign above. */
  function BitfieldValue(signed: bool, immr: SixBits, imms: SixBits, x: Word): Word {
    var size := Pow2(BitfieldWidth(immr, imms));
    var src := (if imms >= immr then x / Pow2(immr) else x) % size;
    var v := if signed && src >= size / 2 then src - size else src;
    Wrap(if imms >= immr then v else v * Pow2(64 - immr))
  }

  function Field16(bits: Insn): (w: Word)
  {
    assert Pow2(16) == 65536 by { Pow2Is16(); }
    Field(bits, 5, 16)
  }

  function PageOf(pc: Word, bits: Insn): Word {
    Wrap(pc / 4096 * 4096 + SignedField(bits, 5, 19) * 16384 + Field(bits, 29, 2) * 4096)
  }

  // Instructions.

  function Goes(a: Arch): Arch {
    a.(pc := Wrap(a.pc + 4))
  }

  function LoadStoreStep(cfg: Config, a: Arch, bits: Insn, load: bool, index: Index): Arch
    requires a.regs.Valid()
  {
    hide RegField, SignedField, Load64, Store64;
    var t, n := RegField(bits, 0), RegField(bits, 5);
    var base := GetSP(a.regs, n);
    var moved := Wrap(base + SignedField(bits, 12, 9));
    var addr := if index.PostIndex? then base else moved;
    var regs := if index.Offset? then a.regs else SetSP(a.regs, n, moved);
    if load then Goes(a.(regs := SetZ(regs, t, if DataWord(cfg, addr) then Load64(a.mem, addr) else 0)))
    else
      var data := GetZ(a.regs, t);
      Goes(a.(regs := regs,
              mem := if DataWord(cfg, addr) then Store64(a.mem, addr, data) else a.mem,
              output := if addr == IO_CHAR_ADDR then a.output + [data] else a.output))
  }

  /** One instruction of the architecture. What is outside the modelled classes does nothing here. */
  function ArmStep(p: Program, a: Arch): Arch
    requires a.regs.Valid()
  {
    hide Field, SignedField, RegField, Pow2, Load64, Store64;
    var bits := p.code(a.pc);
    var d, n, m := RegField(bits, 0), RegField(bits, 5), RegField(bits, 16);
    match A64Of(bits)
    case AddSubShifted(sub, amount) =>
      var x, y := GetZ(a.regs, n), ShiftLeft(GetZ(a.regs, m), amount);
      Goes(a.(regs := SetZ(a.regs, d, if sub then Wrap(x - y) else Wrap(x + y)),
              nzcv := if sub then FlagsOfDifference(x, y) else FlagsOfSum(x, y)))
    case LogicalShifted(op, invert, setFlags, amount) =>
      var y := ShiftLeft(GetZ(a.regs, m), amount);
      var r := WordOp(op, GetZ(a.regs, n), if invert then Complement(y) else y);
      Goes(a.(regs := SetZ(a.regs, d, r), nzcv := if setFlags then FlagsOfBits(r) else a.nzcv))
    case AddSubImmediate(sub) =>
      var x, imm := GetSP(a.regs, n), Field(bits, 10, 12);
      Goes(a.(regs := SetSP(a.regs, d, if sub then Wrap(x - imm) else Wrap(x + imm))))
    case MoveWide(keep) =>
      var at := Field(bits, 21, 2) * 16;
      var left := if keep then WordOp(And, GetZ(a.regs, d), Complement(ShiftLeft(0xFFFF, at))) else 0;
      Goes(a.(regs := SetZ(a.regs, d, WordOp(Or, left, ShiftLeft(Field16(bits), at)))))
    case Bitfield(signed, immr, imms) =>
      Goes(a.(regs := SetZ(a.regs, d, BitfieldValue(signed, immr, imms, GetZ(a.regs, n)))))
    case DataTwoSource(f) =>
      Goes(a.(regs := SetZ(a.regs, d, TwoSourceValue(f, GetZ(a.regs, n), GetZ(a.regs, m)))))
    case LoadStore(load, index) => LoadStoreStep(p.cfg, a, bits, load, index)
    case PageAddress => Goes(a.(regs := SetZ(a.regs, d, PageOf(a.pc, bits))))
    case Branch(link) =>
      a.(regs := if link then SetZ(a.regs, 30, Wrap(a.pc + 4)) else a.regs,
         pc := Wrap(a.pc + SignedField(bits, 0, 26) * 4))
    case BranchConditional =>
      if ConditionHolds(Field(bits, 0, 4), a.nzcv) then a.(pc := Wrap(a.pc + SignedField(bits, 5, 19) * 4)) else Goes(a)
    case Return => a.(pc := GetZ(a.regs, n))
    case Hint => Goes(a)
    case Outside => a
  }
}
