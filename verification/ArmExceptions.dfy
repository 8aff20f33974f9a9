/** For every encoding that is not run as the architecture has it, a state that shows it. */
module ArmExceptions {
  import opened Words
  import opened Bits
  import opened Alu
  import opened Isa
  import opened FlatMemory
  import opened MemorySystem
  import opened Datapath
  import opened Sequential
  import opened ArmReference
  import opened OpMeaning
  import opened OpAgreement
  import opened ArmAgreement

  /** Encodings that are run as the architecture has them in every state. */
  predicate AsArm(bits: Insn) {
    && Intended(bits)
    && !(A64Of(bits).PageAddress? && RegField(bits, 0) == 31)
    && !(A64Of(bits).Return? && RegField(bits, 5) == 31)
  }

  const LAYOUT := Config(4096, 8192, 0x100_0000_0000, NoCache)

  /** A machine with the same value in all registers, at an instruction. */
  function Trial(c: Word, sp: Word): (a: Arch)
    ensures a.regs.Valid()
  {
    Arch(Regs(seq(31, _ => c), sp), Flags(false, true, false, false), 4096, seq(TWO64, _ => 0), [])
  }

  function Always(bits: Insn): Program {
    Program(LAYOUT, _ => bits)
  }

  /** The emulator does something else at `bits` in the trial state. */
  predicate Shows(bits: Insn, c: Word, sp: Word) {
    var p, a := Always(bits), Trial(c, sp);
    Behaves(p, a) && !Halted(p, a) && SeqStep(p, a) != ArmStep(p, a)
  }

  lemma LegalHere(bits: Insn, c: Word, sp: Word)
    requires A64Of(bits) != Outside
    ensures !Halted(Always(bits), Trial(c, sp))
  {
    hide OpOf, A64Of, RegField, AdrpValue;
    Decodes(bits);
  }

  lemma QuietBehaves(p: Program, a: Arch)
    requires a.regs.Valid() && !FetchFault(p.cfg, a.pc) && OpOf(p.code(a.pc)) !in {LDUR, STUR}
    ensures Behaves(p, a)
  {
    hide OpOf, AluResult, AluFlags, ImmediateOf, AdrpValue, RegField, CondHolds, ExecuteFlags, OperandsOf, HwOf,
      CondOf, DataWord;
  }

  /** It is enough that the opcode means something else. */
  lemma ShownByOp(bits: Insn, c: Word, sp: Word)
    requires A64Of(bits) != Outside && Behaves(Always(bits), Trial(c, sp))
    requires !Halted(Always(bits), Trial(c, sp)) ==>
      OpStep(Always(bits), Trial(c, sp)) != ArmStep(Always(bits), Trial(c, sp))
    ensures Shows(bits, c, sp)
  {
    hide Behaves, Halted, OpStep, ArmStep, SeqStep, A64Of;
    LegalHere(bits, c, sp);
    SequentialIsOp(Always(bits), Trial(c, sp));
  }

  lemma NotMemory(bits: Insn, c: Word, sp: Word)
    requires A64Of(bits) != Outside && !A64Of(bits).LoadStore?
    ensures Behaves(Always(bits), Trial(c, sp))
  {
    hide OpOf, A64Of, Behaves, RegField;
    Decodes(bits);
    QuietBehaves(Always(bits), Trial(c, sp));
  }

  lemma TrialRegister(c: Word, sp: Word, r: Reg)
    requires r <= 31
    ensures GetZ(Trial(c, sp).regs, r) == (if r == 31 then 0 else c)
    ensures GetSP(Trial(c, sp).regs, r) == (if r == 31 then sp else c)
  {}

  lemma DifferentWrite(regs: Regs, d: Reg, v: Word, w: Word)
    requires regs.Valid() && d < 31 && v != w
    ensures SetZ(regs, d, v) != SetZ(regs, d, w)
  {
    assert SetZ(regs, d, v).gpr[d] == v && SetZ(regs, d, w).gpr[d] == w;
  }

  // Shifted operands.

  lemma ShiftOut(k: nat)
    requires 1 <= k < 64
    ensures ShiftLeft(TWO63, k) == 0
  {
    assert TWO63 * Pow2(k) == TWO64 * Pow2(k - 1);
  }

  lemma ShownByAddSub(bits: Insn)
    requires A64Of(bits).AddSubShifted? && !Intended(bits)
    ensures Shows(bits, TWO63, 0)
  {
    hide Field, SignedField, Six, A64Of, OpOf, RegField, ShiftLeft, Complement, WordOp, Load64, Store64, DataWord,
      Halted, Behaves, Shows;
    var p, a := Always(bits), Trial(TWO63, 0);
    Decodes(bits);
    ShiftOut(A64Of(bits).amount);
    NotMemory(bits, TWO63, 0);
    LegalHere(bits, TWO63, 0);
    TrialRegister(TWO63, 0, RegField(bits, 5));
    TrialRegister(TWO63, 0, RegField(bits, 16));
    assert OpStep(p, a).nzcv.z != ArmStep(p, a).nzcv.z;
    ShownByOp(bits, TWO63, 0);
  }

  lemma {:induction false} AndSame(b: nat, n: nat)
    requires b < Pow2(n)
    ensures Zip(And, b, b, n) == b && Zip(And, b, 0, n) == 0
  {
    if n > 0 { AndSame(b / 2, n - 1); }
  }

  lemma ShownByAnds(bits: Insn)
    requires A64Of(bits).LogicalShifted? && A64Of(bits).setFlags && !Intended(bits)
    ensures Shows(bits, TWO63, 0)
  {
    hide Field, SignedField, Six, A64Of, OpOf, RegField, ShiftLeft, Complement, Zip, Load64, Store64, DataWord,
      Halted, Behaves, Shows, Pow2;
    var p, a := Always(bits), Trial(TWO63, 0);
    Decodes(bits);
    LogicalKinds(bits);
    ShiftOut(A64Of(bits).amount);
    Pow2Is64();
    AndSame(TWO63, 64);
    NotMemory(bits, TWO63, 0);
    LegalHere(bits, TWO63, 0);
    TrialRegister(TWO63, 0, RegField(bits, 5));
    TrialRegister(TWO63, 0, RegField(bits, 16));
    assert OpStep(p, a).nzcv.z != ArmStep(p, a).nzcv.z;
    ShownByOp(bits, TWO63, 0);
  }

  /** The bit that the shift would move. */
  lemma MovedBit(op: BoolOp, invert: bool, x: Word, k: nat)
    requires 1 <= k < 64 && x <= 1 && (if invert then op == Or else op != And)
    ensures var y, z := (if invert then Complement(1) else 1), ShiftLeft(1, k);
      WordOp(op, x, y) != WordOp(op, x, if invert then Complement(z) else z)
  {
    hide Zip, WordOp, ShiftLeft;
    var z := ShiftLeft(1, k);
    ShiftLeftBit(1, k, k);
    BitBeyond(x, 1, k);
    BitBeyond(1, 1, k);
    Pow2Is64();
    ComplementBit(1, 64, k);
    ComplementBit(z, 64, k);
    WordOpBit(op, x, if invert then Complement(1) else 1, k);
    WordOpBit(op, x, if invert then Complement(z) else z, k);
  }

  lemma ShownByLogical(bits: Insn)
    requires A64Of(bits).LogicalShifted? && !A64Of(bits).setFlags && !Intended(bits)
    ensures Shows(bits, 1, 0)
  {
    hide Field, SignedField, Six, A64Of, OpOf, RegField, ShiftLeft, Complement, WordOp, Load64, Store64, DataWord,
      Halted, Behaves, Shows, SetZ;
    var p, a := Always(bits), Trial(1, 0);
    var i := A64Of(bits);
    Decodes(bits);
    LogicalKinds(bits);
    NotMemory(bits, 1, 0);
    LegalHere(bits, 1, 0);
    TrialRegister(1, 0, RegField(bits, 5));
    TrialRegister(1, 0, RegField(bits, 16));
    var x := GetZ(a.regs, RegField(bits, 5));
    MovedBit(i.op, i.invert, x, i.amount);
    var y, z: Word := 1, ShiftLeft(1, i.amount);
    DifferentWrite(a.regs, RegField(bits, 0), WordOp(i.op, x, if i.invert then Complement(y) else y),
                   WordOp(i.op, x, if i.invert then Complement(z) else z));
    ShownByOp(bits, 1, 0);
  }

  // Bitfield moves and two-source operations.

  /** A value that a bitfield move and the shift it is taken for treat differently. */
  function Telling(signed: bool, immr: SixBits, imms: SixBits): (x: Word) {
    if imms == 63 then 0
    else
      assert Pow2(imms + 1) <= TWO63 && Pow2(immr) <= TWO63 && Pow2(imms) <= TWO63 by {
        Pow2Is64();
        Pow2Mono(imms + 1, 63);
        Pow2Mono(immr, 63);
        Pow2Mono(imms, 63);
      }
      if signed then Pow2(imms)
      else if imms + 1 < immr then Pow2(imms + 1)
      else if immr == 0 then TWO63
      else Pow2(immr)
  }

  lemma Quotient(m: nat, n: nat)
    requires n <= m
    ensures Pow2(m) / Pow2(n) == Pow2(m - n) && Pow2(m) % Pow2(n) == 0
  {
    Pow2Add(n, m - n);
    DivUnique(Pow2(m), Pow2(n), Pow2(m - n));
  }

  lemma Smaller(m: nat, n: nat)
    requires m < n
    ensures Pow2(m) < Pow2(n) && Pow2(m) / Pow2(n) == 0 && Pow2(m) % Pow2(n) == Pow2(m)
  {
    Pow2Mono(m, n - 1);
    SmallDiv(Pow2(m), Pow2(n));
  }

  lemma SmallDiv(x: nat, y: nat)
    requires x < y
    ensures x / y == 0 && x % y == x
  {}

  lemma TellsUnsigned(immr: SixBits, imms: SixBits)
    requires imms < 63 && imms + 1 != immr
    ensures var x := Telling(false, immr, imms);
      BitfieldValue(false, immr, imms, x) != ShiftFor(false, immr, imms, x)
  {
    hide Halve, Pow2, ShiftRight;
    Pow2Is64();
    if imms + 1 < immr {
      Quotient(imms + 1, imms + 1);
      Pow2Add(imms + 1, 64 - immr);
      Smaller(imms + 65 - immr, 64);
    } else if immr == 0 {
      Quotient(63, imms + 1);
      Half();
      PowZero();
    } else {
      Quotient(immr, immr);
      Smaller(0, imms - immr + 1);
      PowZero();
      Pow2Add(immr, 64 - immr);
    }
  }

  lemma Half()
    ensures Pow2(63) == TWO63
  {
    Pow2Is64();
    assert Pow2(64) == 2 * Pow2(63);
  }

  lemma PowZero()
    ensures Pow2(0) == 1 && forall x: Word :: ShiftLeft(x, 0) == x && x / Pow2(0) == x
  {}

  lemma TellsSigned(immr: SixBits, imms: SixBits)
    requires imms < 63
    ensures var x := Telling(true, immr, imms);
      BitfieldValue(true, immr, imms, x) != ShiftFor(true, immr, imms, x)
  {
    hide Halve, Pow2, ShiftRight, ShiftLeft, BitfieldValue, ShiftFor;
    Half();
    Smaller(imms, 63);
    if imms >= immr { SignDown(immr, imms); } else { SignUp(immr, imms); }
  }

  /** A field that is nothing but its sign. */
  lemma OnlySign(immr: SixBits, imms: SixBits, x: Word, h: int)
    requires Pow2(BitfieldWidth(immr, imms)) == 2 * h
    requires (if imms >= immr then x / Pow2(immr) else x) % (2 * h) == h
    ensures BitfieldValue(true, immr, imms, x) == Wrap(if imms >= immr then -h else -h * Pow2(64 - immr))
  {
    hide Pow2, Wrap, BitfieldWidth;
    assert 2 * h / 2 == h;
  }

  /** The sign of the field comes down with it, and the shift has none. */
  lemma SignDown(immr: SixBits, imms: SixBits)
    requires immr <= imms < 63 && Pow2(imms) < TWO63
    ensures BitfieldValue(true, immr, imms, Pow2(imms)) != ShiftFor(true, immr, imms, Pow2(imms))
  {
    hide Halve, Pow2, ShiftRight, ShiftLeft, BitfieldValue;
    var h := Pow2(imms - immr);
    Quotient(imms, immr);
    Smaller(imms - immr, imms - immr + 1);
    Double(imms - immr);
    OnlySign(immr, imms, Pow2(imms), h);
    Half();
    Smaller(imms - immr, 63);
    NegativeWraps(h);
  }

  /** The sign of the field goes up with it, and the shift leaves nothing. */
  lemma SignUp(immr: SixBits, imms: SixBits)
    requires imms < immr && Pow2(imms) < TWO63
    ensures BitfieldValue(true, immr, imms, Pow2(imms)) != ShiftFor(true, immr, imms, Pow2(imms))
  {
    hide Halve, Pow2, ShiftRight, ShiftLeft, BitfieldValue;
    var h := Pow2(imms);
    Smaller(imms, immr);
    Smaller(imms, imms + 1);
    Double(imms);
    OnlySign(immr, imms, h, h);
    Pow2Add(imms, 64 - immr);
    Pow2Is64();
    Smaller(imms + 64 - immr, 64);
    NegativeWraps(h * Pow2(64 - immr));
    NegateProduct(h, Pow2(64 - immr));
  }

  lemma NegateProduct(x: int, y: int)
    ensures -x * y == -(x * y)
  {}

  lemma NegativeWraps(v: int)
    requires 0 < v < TWO64
    ensures Wrap(-v) != 0 && (v < TWO63 ==> Wrap(-v) > TWO63)
  {}

  lemma ShownByBitfield(bits: Insn)
    requires A64Of(bits).Bitfield? && !Intended(bits)
    ensures var i := A64Of(bits); Shows(bits, Telling(i.signed, i.immr, i.imms), 0)
  {
    hide Field, SignedField, Six, A64Of, OpOf, RegField, Telling, BitfieldValue, ShiftFor, Halted, Behaves, Shows,
      SetZ, OpStep;
    var i := A64Of(bits);
    var c := Telling(i.signed, i.immr, i.imms);
    var p, a := Always(bits), Trial(c, 0);
    NotMemory(bits, c, 0);
    LegalHere(bits, c, 0);
    TrialRegister(c, 0, RegField(bits, 5));
    ShiftStep(p, a);
    if i.signed { TellsSigned(i.immr, i.imms); } else { TellsUnsigned(i.immr, i.imms); }
    DifferentWrite(a.regs, RegField(bits, 0), ShiftFor(i.signed, i.immr, i.imms, c),
                   BitfieldValue(i.signed, i.immr, i.imms, c));
    ShownByOp(bits, c, 0);
  }

  function TellingTwo(f: TwoSource): Word {
    if f.UDIV? || f.SDIV? then 1 else TWO63 + 1
  }

  lemma TellsTwo(f: TwoSource, y: Word)
    requires !f.LSLV? && !f.LSRV? && (y == TellingTwo(f) || (y == 0 && (f.UDIV? || f.SDIV?)))
    ensures TwoSourceValue(f, TellingTwo(f), y) != ShiftBy(f, TellingTwo(f), y)
  {
    hide Halve, Pow2;
    HalveIsDivision(TellingTwo(f), y % 64);
    FirstPowers();
    Half();
  }

  lemma FirstPowers()
    ensures Pow2(0) == 1 && Pow2(1) == 2
  {}

  lemma ShownByTwoSource(bits: Insn)
    requires A64Of(bits).DataTwoSource? && !Intended(bits)
    ensures Shows(bits, TellingTwo(A64Of(bits).f), 0)
  {
    hide Field, SignedField, Six, A64Of, OpOf, RegField, TellingTwo, TwoSourceValue, ShiftBy, Halted, Behaves, Shows,
      SetZ, OpStep;
    var f := A64Of(bits).f;
    var c := TellingTwo(f);
    var p, a := Always(bits), Trial(c, 0);
    NotMemory(bits, c, 0);
    LegalHere(bits, c, 0);
    TrialRegister(c, 0, RegField(bits, 5));
    TrialRegister(c, 0, RegField(bits, 16));
    TwoSourceStep(p, a);
    var y := GetZ(a.regs, RegField(bits, 16));
    TellsTwo(f, y);
    DifferentWrite(a.regs, RegField(bits, 0), ShiftBy(f, c, y), TwoSourceValue(f, c, y));
    ShownByOp(bits, c, 0);
  }

  // Loads and stores that move their base.

  const DATA: Word := 0x1_0000_0000

  function BaseFor(bits: Insn): Word {
    Wrap(DATA - SignedField(bits, 12, 9))
  }

  lemma AddressHere(bits: Insn)
    ensures Wrap(BaseFor(bits) + SignedField(bits, 12, 9)) == DATA && DataWord(LAYOUT, DATA)
    ensures SignedField(bits, 12, 9) != 0 ==> BaseFor(bits) != DATA
  {
    hide Field;
    assert Pow2(9) == 512 && Pow2(8) == 256;
  }

  lemma MemoryBehaves(bits: Insn)
    requires A64Of(bits).LoadStore?
    ensures Behaves(Always(bits), Trial(BaseFor(bits), BaseFor(bits)))
  {
    hide Field, SignedField, Six, A64Of, OpOf, RegField, BaseFor, AluResult, Halted, Behaves, DataWord, SeqM;
    var p, a := Always(bits), Trial(BaseFor(bits), BaseFor(bits));
    Decodes(bits);
    AddressHere(bits);
    TrialRegister(BaseFor(bits), BaseFor(bits), RegField(bits, 5));
    AddressMeans(p, a);
  }

  /** A load or store to a data word behaves, and so does a store to the console. */
  lemma AddressMeans(p: Program, a: Arch)
    requires a.regs.Valid() && !FetchFault(p.cfg, a.pc) && a.pc != 0 && OpOf(p.code(a.pc)) in {LDUR, STUR}
    requires var addr := Wrap(GetSP(a.regs, RegField(p.code(a.pc), 5)) + SignedField(p.code(a.pc), 12, 9));
      DataWord(p.cfg, addr) || (OpOf(p.code(a.pc)) == STUR && addr == IO_CHAR_ADDR)
    ensures Behaves(p, a)
  {
    hide OpOf, AluResult, AluFlags, SignedField, Field, RegField, DataWord, GetSP, Wrap, CondHolds, Regs.Read,
      ExecuteFlags, AdrpValue, HwOf, CondOf;
    var x := SeqX(p, a);
    assert x.xs == NO_X && x.aluOp == PLUS_OP && x.imm == Wrap(SignedField(p.code(a.pc), 12, 9));
    ReadZ(a.regs, RegField(p.code(a.pc), 5));
    AluMeaning(OperandA(x), OperandB(x), x.hw);
    WrapSum(OperandA(x), SignedField(p.code(a.pc), 12, 9));
  }

  lemma ShownByLoadStore(bits: Insn)
    requires A64Of(bits).LoadStore? && !Intended(bits)
    ensures Shows(bits, BaseFor(bits), BaseFor(bits))
  {
    hide Field, SignedField, Six, A64Of, OpOf, RegField, Halted, Behaves, Shows, BaseFor, Load64, Store64;
    var p, a := Always(bits), Trial(BaseFor(bits), BaseFor(bits));
    var n := RegField(bits, 5);
    Decodes(bits);
    AddressHere(bits);
    MemoryBehaves(bits);
    LegalHere(bits, BaseFor(bits), BaseFor(bits));
    BaseIsOther(bits);
    assert GetSP(OpStep(p, a).regs, n) == BaseFor(bits);
    assert GetSP(ArmStep(p, a).regs, n) == DATA;
    ShownByOp(bits, BaseFor(bits), BaseFor(bits));
  }

  lemma BaseIsOther(bits: Insn)
    requires A64Of(bits).LoadStore? && !A64Of(bits).index.Offset?
    ensures RegField(bits, 5) == 31 || RegField(bits, 5) != RegField(bits, 0)
  {
    hide Field, Six, RegField, ClassOf;
    TwoSourceKind(bits);
  }

  // Register 31.

  /** A stack pointer that can be told from zero, and from the page. */
  function OtherSP(bits: Insn): Word {
    if A64Of(bits) == Return then 4096 else Wrap(AdrpValue(4096, bits) + 1)
  }

  lemma ShownByThirtyOne(bits: Insn)
    requires A64Of(bits) in {PageAddress, Return} && !AsArm(bits)
    ensures Shows(bits, 0, OtherSP(bits))
  {
    hide Field, SignedField, Six, A64Of, OpOf, RegField, Halted, Behaves, Shows, OpStep, ArmStep, AdrpValue;
    var sp := OtherSP(bits);
    NotMemory(bits, 0, sp);
    LegalHere(bits, 0, sp);
    ThirtyOneRight(Always(bits), Trial(0, sp));
    ShownByOp(bits, 0, sp);
  }

  /** Every modelled encoding outside `AsArm` has a state that shows it. */
  lemma Shown(bits: Insn) returns (p: Program, a: Arch)
    requires A64Of(bits) != Outside && !AsArm(bits)
    ensures a.regs.Valid() && p.code(a.pc) == bits && Behaves(p, a) && !Halted(p, a)
    ensures SeqStep(p, a) != ArmStep(p, a)
  {
    hide A64Of, RegField, SignedField, Behaves, Halted, SeqStep, ArmStep, Telling, BaseFor, AdrpValue, TellingTwo,
      OtherSP;
    p := Always(bits);
    a := Trial(0, OtherSP(bits));
    match A64Of(bits)
    case AddSubShifted(_, _) => ShownByAddSub(bits); a := Trial(TWO63, 0);
    case LogicalShifted(_, _, setFlags, _) =>
      if setFlags { ShownByAnds(bits); a := Trial(TWO63, 0); } else { ShownByLogical(bits); a := Trial(1, 0); }
    case Bitfield(signed, immr, imms) => ShownByBitfield(bits); a := Trial(Telling(signed, immr, imms), 0);
    case DataTwoSource(f) => ShownByTwoSource(bits); a := Trial(TellingTwo(f), 0);
    case LoadStore(_, _) => ShownByLoadStore(bits); a := Trial(BaseFor(bits), BaseFor(bits));
    case PageAddress => ShownByThirtyOne(bits);
    case Return => ShownByThirtyOne(bits);
    case _ =>
  }

  /** Encoding by encoding: the emulator does what the architecture says, in all states,
      if and only if the encoding is one of these. */
  lemma EncodingIsArm(bits: Insn)
    requires A64Of(bits) != Outside
    ensures AsArm(bits) <==>
      forall p: Program, a: Arch | a.regs.Valid() && p.code(a.pc) == bits && Behaves(p, a) && !Halted(p, a) ::
        SeqStep(p, a) == ArmStep(p, a)
  {
    hide A64Of, RegField, SignedField, Behaves, Halted, SeqStep, ArmStep, AdrpValue, Intended;
    if AsArm(bits) {
      forall p: Program, a: Arch | a.regs.Valid() && p.code(a.pc) == bits && Behaves(p, a) && !Halted(p, a)
        ensures SeqStep(p, a) == ArmStep(p, a)
      {
        SequentialIsArm(p, a);
      }
    } else {
      var p, a := Shown(bits);
    }
  }
}
