/** Which encodings are illegal, by their fields. */
module IllegalCodes {
  import opened Words
  import opened Isa
  import opened Sequential
  import opened ArmReference
  import opened ArmAgreement

  /** Encodings outside the classes of the reference that the emulator takes for instructions
      all the same: HLT and what shares its top bits, further system instructions, further
      forms under the top bits of RET, further two-source operations, BC.cond, and accesses
      that write back to the register they transfer. */
  predicate TakenAnyway(bits: Insn) {
    var top := bits / 0x20_0000;
    || top == 0x6A2 || top == 0x6A8 || top == 0x6B2 || top == 0x4D6
    || (bits / 0x100_0000 == 0x54 && bits / 0x10 % 2 == 1)
    || ((top == 0x7C0 || top == 0x7C2) && bits / 0x400 % 2 == 1 && bits % 32 == bits / 32 % 32)
  }

  /** What these are taken for. */
  function TakenFor(bits: Insn): Op {
    var top := bits / 0x20_0000;
    if top == 0x6A2 then HLT
    else if top == 0x6A8 then NOP
    else if top == 0x6B2 then RET
    else if top == 0x4D6 then (if bits / 0x400 % 4 == 0 then LSL_RR else LSR_RR)
    else if top == 0x7C0 then STUR
    else if top == 0x7C2 then LDUR
    else B_COND
  }

  /** The fields in question, as plain arithmetic. */
  lemma PlainFields(bits: Insn)
    ensures Field(bits, 21, 11) == bits / 0x20_0000 < 0x800 && Field(bits, 4, 1) == bits / 0x10 % 2
    ensures Field(bits, 10, 2) == bits / 0x400 % 4 && Field(bits, 10, 2) % 2 == bits / 0x400 % 2
    ensures RegField(bits, 0) == bits % 32 && RegField(bits, 5) == bits / 32 % 32
    ensures bits / 0x100_0000 == 0x54 <==> 0x2A0 <= bits / 0x20_0000 <= 0x2A7
  {
    assert Pow2(0) == 1 && Pow2(1) == 2 && Pow2(2) == 4 && Pow2(4) == 0x10 && Pow2(5) == 32;
    assert Pow2(10) == 0x400 && Pow2(11) == 0x800 && Pow2(21) == 0x20_0000;
  }

  /** The classes that the opcode table has. */
  predicate HasClass(c: Class) {
    || (c.sf == 1 && c.group == 0x0B && c.low == 0 && c.opc % 2 == 1)
    || (c.sf == 1 && c.group == 0x0A && ((c.opc == 1 && c.low < 2) || (c.low == 0 && c.opc >= 2)))
    || (c.sf == 1 && c.group == 0x11 && c.low < 2 && c.opc % 2 == 0)
    || (c.sf == 1 && c.group == 0x12 && c.low >= 4 && c.opc >= 2)
    || (c.sf == 1 && c.group == 0x13 && (c.low == 2 || c.low == 3) && c.opc % 2 == 0)
    || (c.sf == 1 && c.group == 0x1A && c.low == 6 && c.opc == 0)
    || (c.sf == 1 && c.group == 0x18 && c.opc == 3 && (c.low == 0 || c.low == 2))
    || (c.sf == 1 && c.group == 0x10)
    || (c.group / 4 == 5 && c.opc == 0)
    || (c.sf == 0 && c.group == 0x14 && c.opc == 2)
  }

  function TopOf(c: Class): nat {
    c.sf * 1024 + c.opc * 256 + c.group * 8 + c.low
  }

  predicate InRange(c: Class) {
    c.sf < 2 && c.opc < 4 && c.group < 32 && c.low < 8
  }

  lemma TableHasClasses(c: Class)
    requires InRange(c) && HasClass(c)
    ensures OpTable(TopOf(c)) != ERROR
  {}

  lemma ShortClasses(c: Class)
    requires InRange(c) && c.sf == 0 && OpTable(TopOf(c)) != ERROR
    ensures HasClass(c)
  {}

  lemma LowClasses(c: Class)
    requires InRange(c) && c.sf == 1 && c.opc < 2 && OpTable(TopOf(c)) != ERROR
    ensures HasClass(c)
  {}

  lemma HighClasses(c: Class)
    requires InRange(c) && c.sf == 1 && c.opc >= 2 && OpTable(TopOf(c)) != ERROR
    ensures HasClass(c) || TopOf(c) in {0x6A2, 0x6A8, 0x6B2}
  {}

  lemma TableIsClasses(c: Class)
    requires InRange(c)
    ensures OpTable(TopOf(c)) != ERROR <==> HasClass(c) || TopOf(c) in {0x6A2, 0x6A8, 0x6B2}
  {
    hide HasClass, TopOf;
    if HasClass(c) {
      TableHasClasses(c);
    } else if OpTable(TopOf(c)) != ERROR {
      if c.sf == 0 { ShortClasses(c); } else if c.opc < 2 { LowClasses(c); } else { HighClasses(c); }
    }
  }

  /** Without aliases the table decides. */
  lemma AliasesKeep(bits: Insn)
    ensures OpOf(bits) == ERROR <==> OpTable(Field(bits, 21, 11)) == ERROR
    ensures OpOf(bits) == HLT <==> Field(bits, 21, 11) == 0x6A2
  {
    hide Field, Pow2;
  }

  /** Of a class and still outside the reference is only what has fields it leaves out. */
  lemma OutsideKinds(bits: Insn)
    requires A64Of(bits) == Outside && InRange(ClassOf(bits)) && HasClass(ClassOf(bits))
    ensures var c := ClassOf(bits);
      || c == Class(1, 0, 0x1A, 6)
      || (c == Class(1, 3, 0x18, c.low) && c.low in {0, 2} && LoadStoreOf(bits, c.low == 2).Outside?)
      || (c.sf == 0 && c.group == 0x14 && c.opc == 2 && Field(bits, 4, 1) != 0)
  {
    hide Field, Six, RegField, TwoSourceOf, ClassOf, LoadStoreOf;
  }

  lemma OutsideOfClass(bits: Insn)
    requires A64Of(bits) == Outside && HasClass(ClassOf(bits))
    ensures TakenAnyway(bits)
  {
    hide Field, Six, RegField, Pow2, ClassOf, A64Of, HasClass, TakenAnyway, LoadStoreOf;
    TopOfClass(bits);
    OutsideKinds(bits);
    var c := ClassOf(bits);
    if c.group == 0x18 {
      TransferTaken(bits, c.low == 2);
    } else {
      OtherTaken(bits);
    }
  }

  lemma TransferTaken(bits: Insn, load: bool)
    requires LoadStoreOf(bits, load).Outside? && Field(bits, 21, 11) == (if load then 0x7C2 else 0x7C0)
    ensures TakenAnyway(bits)
  {
    hide Field, RegField, Pow2;
    PlainFields(bits);
  }

  lemma OtherTaken(bits: Insn)
    requires Field(bits, 21, 11) == 0x4D6 || (0x2A0 <= Field(bits, 21, 11) <= 0x2A7 && Field(bits, 4, 1) != 0)
    ensures TakenAnyway(bits)
  {
    hide Field, RegField, Pow2;
    PlainFields(bits);
  }

  lemma TakenHasEntry(bits: Insn)
    requires TakenAnyway(bits)
    ensures OpTable(bits / 0x20_0000) != ERROR
  {
    hide Field, Pow2, RegField;
    PlainFields(bits);
  }

  /** An encoding is illegal exactly if it is of none of the classes of the reference, and
      not one of those that are taken for an instruction all the same. */
  lemma IllegalEncodings(bits: Insn)
    ensures OpOf(bits) == ERROR <==> A64Of(bits) == Outside && !TakenAnyway(bits)
    ensures OpOf(bits) == HLT <==> bits / 0x20_0000 == 0x6A2
  {
    hide Field, OpTable, OpOf, A64Of, HasClass, TakenAnyway, ClassOf;
    PlainFields(bits);
    AliasesKeep(bits);
    if A64Of(bits) != Outside {
      Decodes(bits);
    } else {
      TopOfClass(bits);
      TableIsClasses(ClassOf(bits));
      if TakenAnyway(bits) { TakenHasEntry(bits); }
      if HasClass(ClassOf(bits)) { OutsideOfClass(bits); }
      TopsTaken(bits);
    }
  }

  lemma TopsTaken(bits: Insn)
    ensures bits / 0x20_0000 in {0x6A2, 0x6A8, 0x6B2} ==> TakenAnyway(bits)
  {}

  /** What is taken for an instruction is run as that one. */
  lemma TakenIsRun(bits: Insn)
    requires A64Of(bits) == Outside && TakenAnyway(bits)
    ensures OpOf(bits) == TakenFor(bits)
  {
    hide Field, A64Of, Pow2, RegField;
    PlainFields(bits);
  }

  /** The run ends at address 0, at a HLT, and where there is no legal instruction: outside the
      text, between instructions, or at an illegal encoding. */
  lemma WhereItEnds(p: Program, a: Arch)
    ensures var bits := p.code(a.pc);
      var none := a.pc < p.cfg.textStart || a.pc >= p.cfg.dataStart || a.pc % 4 != 0;
      && (Illegal(p, a) <==> a.pc != 0 && (none || (A64Of(bits) == Outside && !TakenAnyway(bits))))
      && (Halted(p, a) <==> a.pc == 0 || Illegal(p, a) || bits / 0x20_0000 == 0x6A2)
  {
    hide OpOf, A64Of, TakenAnyway, AdrpValue;
    IllegalEncodings(p.code(a.pc));
  }
}
