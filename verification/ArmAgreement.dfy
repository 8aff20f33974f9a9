/** Which encodings the emulator runs as the architecture has them: for each encoding,
    in all states or not. */
module ArmAgreement {
  import opened Words
  import opened Bits
  import opened Alu
  import opened Isa
  import opened FlatMemory
  import opened MemorySystem
  import opened Datapath
  import opened Sequential
  import opened ArmReference
  import opened OpMeaning
  import opened OpAgreement

  // Decoding.

  /** The opcode an instruction of the architecture comes to. */
  function OpFor(bits: Insn): Op {
    var d := RegField(bits, 0);
    match A64Of(bits)
    case AddSubShifted(sub, _) =>
      if sub then (if d == 31 then CMP_RR else SUBS_RR) else (if d == 31 then CMN_RR else ADDS_RR)
    case LogicalShifted(op, invert, setFlags, _) =>
      if setFlags then (if d == 31 then TST_RR else ANDS_RR)
      else if op == Xor then EOR_RR
      else if invert then MVN
      else ORR_RR
    case AddSubImmediate(sub) => if sub then SUB_RI else ADD_RI
    case MoveWide(keep) => if keep then MOVK else MOVZ
    case Bitfield(signed, _, imms) => if signed then ASR else if imms == 63 then LSR_RI else LSL_RI
    case DataTwoSource(f) => if f.LSLV? then LSL_RR else LSR_RR
    case LoadStore(load, _) => if load then LDUR else STUR
    case PageAddress => ADRP
    case Branch(link) => if link then BL else B
    case BranchConditional => B_COND
    case Return => RET
    case Hint => NOP
    case Outside => ERROR
  }

  lemma TopOfClass(bits: Insn)
    ensures var c := ClassOf(bits);
      && Field(bits, 21, 11) == c.sf * 1024 + c.opc * 256 + c.group * 8 + c.low
      && c.sf < 2 && c.opc < 4 && c.group < 32 && c.low < 8
  {
    hide Field;
    assert Pow2(11) == 2048;
    Digits(Field(bits, 21, 11));
  }

  lemma Digits(x: nat)
    requires x < 2048
    ensures x == x / 1024 * 1024 + x / 256 % 4 * 256 + x / 8 % 32 * 8 + x % 8 && x / 1024 < 2
  {
    var y, z := x / 8, x / 256;
    assert x == 8 * y + x % 8 && y == 32 * z + y % 32 && z == 4 * (x / 1024) + z % 4;
  }

  lemma LowFields(bits: Insn)
    ensures Field(bits, 10, 2) == Six(bits, 10) % 4
    ensures Field(bits, 10, 6) == Six(bits, 10) && Field(bits, 16, 6) == Six(bits, 16)
    ensures Field(bits, 0, 5) == RegField(bits, 0)
    ensures bits / 0x400 == 0x3597C0 ==> Field(bits, 21, 11) == 0x6B2
    ensures bits / 0x1000 == 0xD5032 ==> Field(bits, 21, 11) == 0x6A8
  {
    assert Pow2(10) == 0x400 && Pow2(2) == 4 && Pow2(6) == 64;
    assert Pow2(21) == 0x20_0000 && Pow2(11) == 0x800;
  }

  /** The opcode before aliases. */
  function TableOp(i: A64): Op {
    match i
    case AddSubShifted(sub, _) => if sub then SUBS_RR else ADDS_RR
    case LogicalShifted(op, invert, setFlags, _) =>
      if setFlags then ANDS_RR else if op == Xor then EOR_RR else if invert then MVN else ORR_RR
    case AddSubImmediate(sub) => if sub then SUB_RI else ADD_RI
    case MoveWide(keep) => if keep then MOVK else MOVZ
    case Bitfield(signed, _, imms) => if signed then ASR else UBFM
    case DataTwoSource(f) => UBFMV
    case LoadStore(load, _) => if load then LDUR else STUR
    case PageAddress => ADRP
    case Branch(link) => if link then BL else B
    case BranchConditional => B_COND
    case Return => RET
    case Hint => NOP
    case Outside => ERROR
  }

  lemma InTable(bits: Insn)
    requires A64Of(bits) != Outside
    ensures OpTable(Field(bits, 21, 11)) == TableOp(A64Of(bits))
  {
    hide Field, Six, RegField, ClassOf, Pow2, TwoSourceOf, LoadStoreOf, OpTable;
    TopOfClass(bits);
    LowFields(bits);
    TwoSourceKind(bits);
    LoadStoreKind(bits, true);
    LoadStoreKind(bits, false);
    ClassRanges(ClassOf(bits));
  }

  /** The opcode table, by the fields of the encoding classes. */
  lemma ClassRanges(c: Class)
    requires c.sf < 2 && c.opc < 4 && c.group < 32 && c.low < 8
    ensures var op := OpTable(c.sf * 1024 + c.opc * 256 + c.group * 8 + c.low);
      && (c.group == 0x0B && c.sf == 1 && c.low == 0 && c.opc % 2 == 1 ==>
            op == if c.opc == 3 then SUBS_RR else ADDS_RR)
      && (c.group == 0x0A && c.sf == 1 && c.opc == 1 && c.low < 2 ==> op == if c.low == 0 then ORR_RR else MVN)
      && (c.group == 0x0A && c.sf == 1 && c.low == 0 && c.opc == 2 ==> op == EOR_RR)
      && (c.group == 0x0A && c.sf == 1 && c.low == 0 && c.opc == 3 ==> op == ANDS_RR)
      && (c.group == 0x11 && c.sf == 1 && c.low < 2 && c.opc % 2 == 0 ==> op == if c.opc == 2 then SUB_RI else ADD_RI)
      && (c.group == 0x12 && c.sf == 1 && c.low >= 4 && c.opc >= 2 ==> op == if c.opc == 3 then MOVK else MOVZ)
      && (c.group == 0x13 && c.sf == 1 && (c.low == 2 || c.low == 3) && c.opc % 2 == 0 ==>
            op == if c.opc == 0 then ASR else UBFM)
      && (c.group == 0x1A && c.sf == 1 && c.low == 6 && c.opc == 0 ==> op == UBFMV)
      && (c.group == 0x18 && c.sf == 1 && c.opc == 3 && (c.low == 0 || c.low == 2) ==>
            op == if c.low == 2 then LDUR else STUR)
      && (c.group == 0x10 && c.sf == 1 ==> op == ADRP)
      && (c.group / 4 == 5 && c.opc == 0 ==> op == if c.sf == 1 then BL else B)
      && (c.group == 0x14 && c.sf == 0 && c.opc == 2 ==> op == B_COND)
    ensures OpTable(0x6B2) == RET && OpTable(0x6A8) == NOP
  {}

  lemma TwoSourceKind(bits: Insn)
    ensures TwoSourceOf(bits).Outside? || TwoSourceOf(bits).DataTwoSource?
    ensures TwoSourceOf(bits).DataTwoSource? ==> (TwoSourceOf(bits).f.LSLV? <==> Six(bits, 10) % 4 == 0)
  {
    hide Six;
  }

  lemma LoadStoreKind(bits: Insn, load: bool)
    ensures var i := LoadStoreOf(bits, load);
      i.Outside? || (i.LoadStore? && i.load == load)
  {
    hide Field, RegField;
  }

  /** The opcode table and the aliases give every modelled instruction its opcode. */
  lemma Decodes(bits: Insn)
    requires A64Of(bits) != Outside
    ensures OpOf(bits) == OpFor(bits)
  {
    hide Field, Six, RegField, A64Of, Pow2, OpTable;
    InTable(bits);
    LowFields(bits);
    ClassFields(bits);
  }

  /** By its opcode an instruction reads the registers that it reads by its encoding. */
  lemma ReadsAgree(bits: Insn, r: nat)
    requires A64Of(bits) != Outside
    ensures Reads(OpOf(bits), bits, r) <==> ReadsGeneral(bits, r)
  {
    hide Field, Six, RegField, A64Of, OpOf;
    Decodes(bits);
  }

  /** Where the parameters of an instruction come from. */
  lemma ClassFields(bits: Insn)
    ensures match A64Of(bits)
      case Bitfield(_, immr, imms) => immr == Six(bits, 16) && imms == Six(bits, 10)
      case DataTwoSource(f) => f.LSLV? <==> Six(bits, 10) % 4 == 0
      case AddSubShifted(_, amount) => amount == Six(bits, 10)
      case LogicalShifted(_, _, _, amount) => amount == Six(bits, 10)
      case _ => true
    ensures A64Of(bits).LogicalShifted? ==> (A64Of(bits).setFlags ==> A64Of(bits).op == And && !A64Of(bits).invert)
  {
    hide Field, Six, RegField, ClassOf, TwoSourceOf, LoadStoreOf;
    TwoSourceKind(bits);
    LoadStoreKind(bits, true);
    LoadStoreKind(bits, false);
  }

  // Which encodings.

  /** The forms the opcode table is meant for. A shifted operand must not be shifted, or be
      zero, or not matter; a bitfield move must be the shift it is taken for; a two-source
      operation must be that shift; a load or store must not move its base register. */
  predicate Intended(bits: Insn) {
    var d, n, m := RegField(bits, 0), RegField(bits, 5), RegField(bits, 16);
    match A64Of(bits)
    case AddSubShifted(_, amount) => amount == 0 || m == 31
    case LogicalShifted(_, _, setFlags, amount) => amount == 0 || m == 31 || (if setFlags then n == 31 else d == 31)
    case Bitfield(signed, immr, imms) => imms == 63 || (!signed && imms + 1 == immr) || d == 31 || n == 31
    case DataTwoSource(f) => f.LSLV? || f.LSRV? || d == 31 || n == 31 || ((f.ASRV? || f.RORV?) && m == 31)
    case LoadStore(_, index) => index.Offset? || SignedField(bits, 12, 9) == 0
    case Outside => false
    case _ => true
  }

  /** ADRP to register 31 sets the stack pointer, where the architecture has the zero register. */
  predicate AdrpToSP(a: Arch, bits: Insn) {
    A64Of(bits) == PageAddress && RegField(bits, 0) == 31 && AdrpValue(a.pc, bits) != a.regs.sp
  }

  /** RET through register 31 goes to the stack pointer, where the architecture has the zero register. */
  predicate RetToSP(a: Arch, bits: Insn) {
    A64Of(bits) == Return && RegField(bits, 5) == 31 && a.regs.sp != 0
  }

  // Intended encodings agree.

  lemma ShiftNothing(y: Word, k: nat)
    requires k == 0 || y == 0
    ensures ShiftLeft(y, k) == y
  {
    assert y * Pow2(k) == y;
  }

  lemma {:induction false} AndNone(b: nat, n: nat)
    ensures Zip(And, 0, b, n) == 0
  {
    if n > 0 { AndNone(b / 2, n - 1); }
  }

  lemma AddSubRight(p: Program, a: Arch)
    requires a.regs.Valid() && !Halted(p, a) && Intended(p.code(a.pc)) && A64Of(p.code(a.pc)).AddSubShifted?
    ensures OpStep(p, a) == ArmStep(p, a)
  {
    hide Field, SignedField, Six, A64Of, OpOf, RegField, ShiftLeft, ShiftRight, WordOp, Complement, FlagsOfSum,
      FlagsOfDifference, Wrap, Load64, Store64, DataWord, Halted;
    var bits := p.code(a.pc);
    Decodes(bits);
    ShiftNothing(GetZ(a.regs, RegField(bits, 16)), A64Of(bits).amount);
  }

  /** The shift does not matter. */
  lemma LogicalValue(x: Word, y: Word, k: nat)
    requires k == 0 || y == 0 || x == 0
    ensures WordOp(And, x, ShiftLeft(y, k)) == WordOp(And, x, y)
  {
    hide ShiftLeft;
    if k == 0 || y == 0 { ShiftNothing(y, k); }
    AndNone(y, 64);
    AndNone(ShiftLeft(y, k), 64);
  }

  lemma LogicalRight(p: Program, a: Arch)
    requires a.regs.Valid() && !Halted(p, a) && Intended(p.code(a.pc)) && A64Of(p.code(a.pc)).LogicalShifted?
    ensures OpStep(p, a) == ArmStep(p, a)
  {
    hide Field, SignedField, Six, A64Of, OpOf, RegField, ShiftLeft, ShiftRight, WordOp, Complement, FlagsOfBits, Wrap,
      Load64, Store64, DataWord, Halted;
    var bits := p.code(a.pc);
    Decodes(bits);
    LogicalKinds(bits);
    var x, y := GetZ(a.regs, RegField(bits, 5)), GetZ(a.regs, RegField(bits, 16));
    if A64Of(bits).amount == 0 || y == 0 { ShiftNothing(y, A64Of(bits).amount); }
    if A64Of(bits).setFlags { LogicalValue(x, y, A64Of(bits).amount); }
  }

  lemma LogicalKinds(bits: Insn)
    requires A64Of(bits).LogicalShifted?
    ensures A64Of(bits).invert ==> A64Of(bits).op == Or
    ensures A64Of(bits).setFlags <==> A64Of(bits).op == And
  {
    hide Field, Six, RegField, ClassOf, TwoSourceOf, LoadStoreOf;
    TwoSourceKind(bits);
    LoadStoreKind(bits, true);
    LoadStoreKind(bits, false);
  }

  lemma SumRight(p: Program, a: Arch)
    requires a.regs.Valid() && !Halted(p, a) && A64Of(p.code(a.pc)).AddSubImmediate?
    ensures OpStep(p, a) == ArmStep(p, a)
  {
    hide Field, SignedField, Six, A64Of, OpOf, RegField, ShiftLeft, ShiftRight, WordOp, Complement, Wrap, Load64,
      Store64, DataWord, Halted, ConditionHolds, Field16, HwOf, FlagsOfSum, FlagsOfDifference, FlagsOfBits, AdrpValue,
      PageOf, BitfieldValue, TwoSourceValue, LoadStoreStep, Intended, SeqD, Regs.Write, Regs.Read, GetZ;
    Decodes(p.code(a.pc));
  }

  lemma MoveRight(p: Program, a: Arch)
    requires a.regs.Valid() && !Halted(p, a) && A64Of(p.code(a.pc)).MoveWide?
    ensures OpStep(p, a) == ArmStep(p, a)
  {
    hide Field, SignedField, Six, A64Of, OpOf, RegField, ShiftLeft, ShiftRight, WordOp, Complement, Wrap, Load64,
      Store64, DataWord, Halted, ConditionHolds, Field16;
    var bits := p.code(a.pc);
    Decodes(bits);
    OrZeroWord(ShiftLeft(Field16(bits), HwOf(bits)));
  }

  lemma BranchRight(p: Program, a: Arch)
    requires a.regs.Valid() && !Halted(p, a) && A64Of(p.code(a.pc)).Branch?
    ensures OpStep(p, a) == ArmStep(p, a)
  {
    hide Field, SignedField, Six, A64Of, OpOf, RegField, ShiftLeft, ShiftRight, WordOp, Complement, Wrap, Load64,
      Store64, DataWord, Halted, ConditionHolds, Field16, HwOf;
    Decodes(p.code(a.pc));
  }

  lemma QuietRight(p: Program, a: Arch)
    requires a.regs.Valid() && !Halted(p, a) && A64Of(p.code(a.pc)) in {BranchConditional, Hint}
    ensures OpStep(p, a) == ArmStep(p, a)
  {
    hide Field, SignedField, Six, A64Of, OpOf, RegField, ShiftLeft, ShiftRight, WordOp, Complement, Wrap, Load64,
      Store64, DataWord, Halted, ConditionHolds, Field16, HwOf;
    Decodes(p.code(a.pc));
  }

  lemma PageIsAdrp(pc: Word, bits: Insn)
    ensures PageOf(pc, bits) == AdrpValue(pc, bits)
  {
    hide Field;
    assert Pow2(9) == 512 && Pow2(10) == 1024 && Pow2(2) == 4;
    Pow2Add(9, 9);
    Pow2Add(9, 10);
  }

  lemma ThirtyOne(regs: Regs, r: Reg, v: Word)
    requires regs.Valid() && r <= 31
    ensures SetSP(regs, r, v) == SetZ(regs, r, v) <==> r != 31 || v == regs.sp
    ensures GetSP(regs, r) == GetZ(regs, r) <==> r != 31 || regs.sp == 0
  {}

  /** The two uses of register 31. */
  lemma ThirtyOneRight(p: Program, a: Arch)
    requires a.regs.Valid() && !Halted(p, a) && A64Of(p.code(a.pc)) in {PageAddress, Return}
    ensures OpStep(p, a) == ArmStep(p, a) <==> !AdrpToSP(a, p.code(a.pc)) && !RetToSP(a, p.code(a.pc))
  {
    hide Field, SignedField, Six, A64Of, OpOf, RegField, Wrap, Load64, Store64, DataWord, Halted, AdrpValue, PageOf,
      GetZ, GetSP, SetZ, SetSP;
    var bits := p.code(a.pc);
    Decodes(bits);
    PageIsAdrp(a.pc, bits);
    ThirtyOne(a.regs, RegField(bits, 0), AdrpValue(a.pc, bits));
    ThirtyOne(a.regs, RegField(bits, 5), 0);
  }

  lemma LoadStoreRight(p: Program, a: Arch)
    requires a.regs.Valid() && !Halted(p, a) && Intended(p.code(a.pc)) && A64Of(p.code(a.pc)).LoadStore?
    ensures OpStep(p, a) == ArmStep(p, a)
  {
    hide Field, SignedField, Six, A64Of, OpOf, RegField, Load64, Store64, DataWord, Halted;
    var bits := p.code(a.pc);
    Decodes(bits);
  }

  // Bitfield moves and the shifts they are taken for.

  /** What the emulator computes for a bitfield move. */
  function ShiftFor(signed: bool, immr: SixBits, imms: SixBits, x: Word): Word {
    if signed then Wrap(Signed(x) / Pow2(immr))
    else if imms == 63 then ShiftRight(x, immr)
    else ShiftLeft(x, (64 - immr) % 64)
  }

  lemma Powers(i: nat)
    requires i < 64
    ensures Pow2(i) * Pow2(64 - i) == TWO64 && Pow2(i) * Pow2(63 - i) == TWO63 && Pow2(64 - i) == 2 * Pow2(63 - i)
  {
    Pow2Is64();
    Pow2Add(i, 64 - i);
    Pow2Add(i, 63 - i);
    assert Pow2(64) == 2 * Pow2(63);
  }

  lemma Compare(p: nat, q: int, r: int, s: int)
    requires 0 <= r < p
    ensures p * q + r >= p * s <==> q >= s
  {
    MulStep(p, q, s);
    MulStep(p, s, q);
  }

  /** The high part of a word, and of the word less 2^64. */
  lemma HighPart(x: Word, p: nat, s: nat, h: nat)
    requires p >= 1 && p * s == TWO64 && p * h == TWO63
    ensures x / p < s && (x / p >= h <==> x >= TWO63)
    ensures (x - TWO64) / p == x / p - s
  {
    var q, r := x / p, x % p;
    assert x == p * q + r;
    Compare(p, q, r, s);
    Compare(p, q, r, h);
    Subtract(x, p, q, r, s);
  }

  lemma Subtract(x: Word, p: nat, q: int, r: int, s: int)
    requires 0 <= r < p && x == p * q + r && p * s == TWO64
    ensures (x - TWO64) / p == q - s
  {
    assert p * (q - s) == p * q - p * s;
    DivUnique(x - TWO64, p, q - s);
  }

  /** Taking the top bits down, with zeros or with the sign above them. */
  lemma TopBitsDown(x: Word, p: nat, s: nat, h: nat)
    requires p >= 1 && p * s == TWO64 && p * h == TWO63 && s == 2 * h
    ensures var src := x / p % s;
      src == x / p && (if src >= h then src - s else src) == Signed(x) / p
  {
    HighPart(x, p, s, h);
    var q := x / p;
    assert q >= 0;
    assert q % s == q by { SmallMod(q, s); }
  }

  lemma SmallMod(q: int, s: int)
    requires 0 <= q < s
    ensures q % s == q
  {}

  lemma TopField(signed: bool, immr: SixBits, x: Word)
    ensures BitfieldValue(signed, immr, 63, x) == ShiftFor(signed, immr, 63, x)
  {
    hide Halve, Pow2, Wrap;
    Powers(immr);
    TopBitsDown(x, Pow2(immr), Pow2(64 - immr), Pow2(63 - immr));
    HalveIsDivision(x, immr);
    WordWraps(Halve(x, immr));
  }

  lemma WordWraps(x: Word)
    ensures Wrap(x) == x
  {}

  lemma LowField(immr: SixBits, imms: SixBits, x: Word)
    requires imms + 1 == immr
    ensures BitfieldValue(false, immr, imms, x) == ShiftFor(false, immr, imms, x)
  {
    hide Halve, Pow2, ShiftRight;
    Powers(immr);
    LowPart(x, Pow2(immr), Pow2(64 - immr));
  }

  /** Moving up drops what is above. */
  lemma LowPart(x: Word, p: nat, s: nat)
    requires p >= 1 && p * s == TWO64
    ensures Wrap(x * s) == Wrap(x % p * s)
  {
    var q, r := x / p, x % p;
    assert x == p * q + r;
    Distribute(p, q, r, s);
    WrapMore(r * s, q);
  }

  lemma Distribute(p: int, q: int, r: int, s: int)
    ensures (p * q + r) * s == q * (p * s) + r * s
  {}

  lemma WrapMore(v: int, q: int)
    ensures Wrap(q * TWO64 + v) == Wrap(v)
  {}

  lemma BitfieldRight(p: Program, a: Arch)
    requires a.regs.Valid() && !Halted(p, a) && Intended(p.code(a.pc)) && A64Of(p.code(a.pc)).Bitfield?
    ensures OpStep(p, a) == ArmStep(p, a)
  {
    hide Field, SignedField, Six, A64Of, OpOf, RegField, BitfieldValue, ShiftFor, Wrap, Load64, Store64, DataWord,
      Halted;
    var bits := p.code(a.pc);
    var i, x := A64Of(bits), GetZ(a.regs, RegField(bits, 5));
    ShiftStep(p, a);
    if i.imms == 63 {
      TopField(i.signed, i.immr, x);
    } else if !i.signed && i.imms + 1 == i.immr {
      LowField(i.immr, i.imms, x);
    } else if x == 0 {
      NothingToShift(i.signed, i.immr, i.imms);
    }
  }

  lemma NothingToShift(signed: bool, immr: SixBits, imms: SixBits)
    ensures BitfieldValue(signed, immr, imms, 0) == 0 == ShiftFor(signed, immr, imms, 0)
  {
    hide Halve, Pow2, ShiftLeft;
    ShiftNothing(0, (64 - immr) % 64);
    HalveIsDivision(0, immr);
    Double(BitfieldWidth(immr, imms) - 1);
    ZeroParts(Pow2(immr), Pow2(BitfieldWidth(immr, imms)), Pow2(64 - immr));
  }

  lemma Double(n: nat)
    ensures Pow2(n + 1) == 2 * Pow2(n)
  {}

  lemma ZeroParts(p: nat, s: nat, t: nat)
    requires p >= 1 && s >= 1
    ensures 0 / p == 0 && 0 % s == 0 && 0 * t == 0
  {}

  /** What the emulator does with a bitfield move. */
  lemma ShiftStep(p: Program, a: Arch)
    requires a.regs.Valid() && !Halted(p, a) && A64Of(p.code(a.pc)).Bitfield?
    ensures var bits := p.code(a.pc);
      var i := A64Of(bits);
      OpStep(p, a) == Goes(a.(regs := SetZ(a.regs, RegField(bits, 0),
                                           ShiftFor(i.signed, i.immr, i.imms, GetZ(a.regs, RegField(bits, 5))))))
  {
    hide Field, SignedField, Six, A64Of, OpOf, RegField, ShiftLeft, ShiftRight, Wrap, Load64, Store64, DataWord,
      Halted, Pow2;
    var bits := p.code(a.pc);
    Decodes(bits);
    LowFields(bits);
    ClassFields(bits);
  }

  // Two-source operations and the shifts they are taken for.

  function ShiftBy(f: TwoSource, x: Word, y: Word): Word {
    if f.LSLV? then ShiftLeft(x, y % 64) else ShiftRight(x, y % 64)
  }

  lemma TwoSourceStep(p: Program, a: Arch)
    requires a.regs.Valid() && !Halted(p, a) && A64Of(p.code(a.pc)).DataTwoSource?
    ensures var bits := p.code(a.pc);
      OpStep(p, a) == Goes(a.(regs := SetZ(a.regs, RegField(bits, 0),
        ShiftBy(A64Of(bits).f, GetZ(a.regs, RegField(bits, 5)), GetZ(a.regs, RegField(bits, 16))))))
  {
    hide Field, SignedField, Six, A64Of, OpOf, RegField, ShiftLeft, ShiftRight, Wrap, Load64, Store64, DataWord,
      Halted;
    var bits := p.code(a.pc);
    Decodes(bits);
    ClassFields(bits);
  }

  /** Zero stays zero, and nothing is shifted by nothing. */
  lemma SameTwoSource(f: TwoSource, x: Word, y: Word)
    requires f.LSLV? || f.LSRV? || x == 0 || ((f.ASRV? || f.RORV?) && y == 0)
    ensures TwoSourceValue(f, x, y) == ShiftBy(f, x, y)
  {
    HalveIsDivision(x, y % 64);
    if x == 0 { ShiftNothing(0, y % 64); }
  }

  lemma TwoSourceRight(p: Program, a: Arch)
    requires a.regs.Valid() && !Halted(p, a) && Intended(p.code(a.pc)) && A64Of(p.code(a.pc)).DataTwoSource?
    ensures OpStep(p, a) == ArmStep(p, a)
  {
    hide Field, SignedField, Six, A64Of, OpOf, RegField, TwoSourceValue, ShiftBy, Wrap, Load64, Store64, DataWord,
      Halted;
    var bits := p.code(a.pc);
    TwoSourceStep(p, a);
    var x, y := GetZ(a.regs, RegField(bits, 5)), GetZ(a.regs, RegField(bits, 16));
    if RegField(bits, 0) != 31 { SameTwoSource(A64Of(bits).f, x, y); }
  }

  /** For every intended encoding, in every state, the datapath and its control signals do
      what the architecture says, but for two uses of register 31. */
  lemma SequentialIsArm(p: Program, a: Arch)
    requires a.regs.Valid() && Behaves(p, a) && !Halted(p, a) && Intended(p.code(a.pc))
    ensures SeqStep(p, a) == ArmStep(p, a) <==> !AdrpToSP(a, p.code(a.pc)) && !RetToSP(a, p.code(a.pc))
  {
    hide Behaves, Halted, SeqStep, OpStep, ArmStep, A64Of, RegField, AdrpValue, Intended;
    SequentialIsOp(p, a);
    var bits := p.code(a.pc);
    NotOutside(bits);
    match A64Of(bits)
    case AddSubShifted(_, _) => AddSubRight(p, a);
    case LogicalShifted(_, _, _, _) => LogicalRight(p, a);
    case Bitfield(_, _, _) => BitfieldRight(p, a);
    case DataTwoSource(_) => TwoSourceRight(p, a);
    case LoadStore(_, _) => LoadStoreRight(p, a);
    case PageAddress => ThirtyOneRight(p, a);
    case Return => ThirtyOneRight(p, a);
    case AddSubImmediate(_) => SumRight(p, a);
    case MoveWide(_) => MoveRight(p, a);
    case Branch(_) => BranchRight(p, a);
    case _ => QuietRight(p, a);
  }

  lemma NotOutside(bits: Insn)
    requires Intended(bits)
    ensures A64Of(bits) != Outside
  {
    hide A64Of;
  }
}
