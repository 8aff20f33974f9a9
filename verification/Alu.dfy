/** The arithmetic unit, the condition flags it sets and the conditions that test them. */
module Alu {
  import opened Words
  import opened Bits
  import opened Adder

  datatype AluOp =
    | PLUS_OP | MINUS_OP | INV_OP | OR_OP | EOR_OP | AND_OP | MOV_OP | MOVK_OP | LSL_OP | LSR_OP | ASR_OP | PASS_A_OP

  datatype Flags = Flags(n: bool, z: bool, c: bool, v: bool)

  datatype Cond = EQ | NE | CS | CC | MI | PL | VS | VC | HI | LS | GE | LT | GT | LE | AL | NV

  predicate CondHolds(cond: Cond, f: Flags) {
    match cond
    case EQ => f.z
    case NE => !f.z
    case CS => f.c
    case CC => !f.c
    case MI => f.n
    case PL => !f.n
    case VS => f.v
    case VC => !f.v
    case HI => f.c && !f.z
    case LS => !f.c || f.z
    case GE => f.n == f.v
    case LT => f.n != f.v
    case GT => !f.z && f.n == f.v
    case LE => f.z || f.n != f.v
    case AL => true
    case NV => true
  }

  predicate Negative(w: Word) {
    w >= TWO63
  }

  function LogicFlags(r: Word): Flags {
    Flags(Negative(r), r == 0, false, false)
  }

  /** The flags of `a + b`, from the sign bits and the adder's carry. */
  function PlusFlags(a: Word, b: Word): Flags {
    var s := AddWithCarry(a, b, false);
    Flags(Negative(s.sum), s.sum == 0, s.carry,
          Negative(a) == Negative(b) && Negative(s.sum) != Negative(a))
  }

  /** The flags of `a - b`, which the adder computes as `a + ~b + 1`. */
  function MinusFlags(a: Word, b: Word): Flags {
    var s := AddWithCarry(a, Complement(b), true);
    Flags(Negative(s.sum), s.sum == 0, s.carry,
          Negative(a) != Negative(b) && Negative(s.sum) != Negative(a))
  }

  function AluResult(op: AluOp, a: Word, b: Word, hw: nat): Word {
    match op
    case PLUS_OP => AddWithCarry(a, b, false).sum
    case MINUS_OP => AddWithCarry(a, Complement(b), true).sum
    case INV_OP => WordOp(Or, a, Complement(b))
    case OR_OP => WordOp(Or, a, b)
    case EOR_OP => WordOp(Xor, a, b)
    case AND_OP => WordOp(And, a, b)
    case MOV_OP => WordOp(Or, a, ShiftLeft(b, hw))
    case MOVK_OP => WordOp(Or, WordOp(And, a, Complement(ShiftLeft(0xFFFF, hw))), ShiftLeft(b, hw))
    case LSL_OP => ShiftLeft(a, b % 64)
    case LSR_OP => ShiftRight(a, b % 64)
    case ASR_OP => Wrap(Signed(a) / Pow2(b % 64))
    case PASS_A_OP => a
  }

  /** Only the adder and the logical operations touch the flags, and only when asked to. */
  function AluFlags(op: AluOp, a: Word, b: Word, hw: nat, setFlags: bool, before: Flags): Flags {
    if !setFlags then before else
    match op
    case PLUS_OP => PlusFlags(a, b)
    case MINUS_OP => MinusFlags(a, b)
    case INV_OP => LogicFlags(AluResult(op, a, b, hw))
    case OR_OP => LogicFlags(AluResult(op, a, b, hw))
    case EOR_OP => LogicFlags(AluResult(op, a, b, hw))
    case AND_OP => LogicFlags(AluResult(op, a, b, hw))
    case _ => before
  }

  method RunAlu(adder: RippleCarryAdder, a: Word, b: Word, hw: nat, nzcv: Flags,
                op: AluOp, setFlags: bool, cond: Cond)
    returns (valE: Word, condVal: bool, nzcvDst: Flags)
    requires adder.rca.Length == 64
    modifies adder.rca
    ensures valE == AluResult(op, a, b, hw)
    ensures nzcvDst == AluFlags(op, a, b, hw, setFlags, nzcv)
    ensures condVal == CondHolds(cond, nzcvDst)
  {
    nzcvDst := nzcv;
    match op {
    case PLUS_OP =>
      adder.Init(a, b, false);
      valE := adder.RippleCarryAdd(a, b, false);
      if setFlags {
        nzcvDst := Flags(valE >= TWO63, valE == 0, adder.rca[63].cOut,
                         (a >= TWO63) == (b >= TWO63) && (valE >= TWO63) != (a >= TWO63));
      }
    case MINUS_OP =>
      adder.Init(a, Complement(b), true);
      valE := adder.RippleCarryAdd(a, Complement(b), true);
      if setFlags {
        nzcvDst := Flags(valE >= TWO63, valE == 0, adder.rca[63].cOut,
                         (a >= TWO63) != (b >= TWO63) && (valE >= TWO63) != (a >= TWO63));
      }
    case INV_OP =>
      valE := WordOp(Or, a, Complement(b));
      if setFlags {
        nzcvDst := Flags(valE >= TWO63, valE == 0, false, false);
      }
    case OR_OP =>
      valE := WordOp(Or, a, b);
      if setFlags {
        nzcvDst := Flags(valE >= TWO63, valE == 0, false, false);
      }
    case EOR_OP =>
      valE := WordOp(Xor, a, b);
      if setFlags {
        nzcvDst := Flags(valE >= TWO63, valE == 0, false, false);
      }
    case AND_OP =>
      valE := WordOp(And, a, b);
      if setFlags {
        nzcvDst := Flags(valE >= TWO63, valE == 0, false, false);
      }
    case MOV_OP => valE := WordOp(Or, a, ShiftLeft(b, hw));
    case MOVK_OP => valE := WordOp(Or, WordOp(And, a, Complement(ShiftLeft(0xFFFF, hw))), ShiftLeft(b, hw));
    case LSL_OP => valE := ShiftLeft(a, b % 64);
    case LSR_OP => valE := ShiftRight(a, b % 64);
    case ASR_OP => valE := Wrap(Signed(a) / Pow2(b % 64));
    case PASS_A_OP => valE := a;
    }
    condVal := CondHolds(cond, nzcvDst);
  }

  // What the flags mean.

  lemma PlusMeaning(a: Word, b: Word, hw: nat)
    ensures AluResult(PLUS_OP, a, b, hw) == Wrap(a + b)
    ensures PlusFlags(a, b).c <==> a + b >= TWO64
    ensures PlusFlags(a, b).v <==> !(-TWO63 <= Signed(a) + Signed(b) < TWO63)
    ensures !PlusFlags(a, b).v ==> Signed(AluResult(PLUS_OP, a, b, hw)) == Signed(a) + Signed(b)
  {}

  lemma MinusMeaning(a: Word, b: Word, hw: nat)
    ensures AluResult(MINUS_OP, a, b, hw) == Wrap(a - b)
    ensures MinusFlags(a, b).c <==> a >= b
    ensures MinusFlags(a, b).v <==> !(-TWO63 <= Signed(a) - Signed(b) < TWO63)
    ensures !MinusFlags(a, b).v ==> Signed(AluResult(MINUS_OP, a, b, hw)) == Signed(a) - Signed(b)
  {}

  /** After a comparison each condition decides the relation it is named for. */
  lemma CompareDecides(a: Word, b: Word, hw: nat, before: Flags)
    ensures var f := AluFlags(MINUS_OP, a, b, hw, true, before);
      && (CondHolds(EQ, f) <==> a == b) && (CondHolds(NE, f) <==> a != b)
      && (CondHolds(CS, f) <==> a >= b) && (CondHolds(CC, f) <==> a < b)
      && (CondHolds(HI, f) <==> a > b) && (CondHolds(LS, f) <==> a <= b)
      && (CondHolds(GE, f) <==> Signed(a) >= Signed(b)) && (CondHolds(LT, f) <==> Signed(a) < Signed(b))
      && (CondHolds(GT, f) <==> Signed(a) > Signed(b)) && (CondHolds(LE, f) <==> Signed(a) <= Signed(b))
      && (CondHolds(MI, f) <==> Signed(Wrap(a - b)) < 0)
  {
    MinusMeaning(a, b, hw);
  }

  /** MOVK replaces one 16-bit field and keeps every other bit of the register. */
  lemma MovkReplacesField(a: Word, imm: nat, hw: nat, i: nat)
    requires imm < 65536 && i < 64
    ensures Bit(AluResult(MOVK_OP, a, imm, hw), i) ==
            if hw <= i < hw + 16 then Bit(imm, i - hw) else Bit(a, i)
  {
    Pow2Is64();
    Pow2Is16();
    var keep := Complement(ShiftLeft(0xFFFF, hw));
    WordOpBit(And, a, keep, i);
    WordOpBit(Or, WordOp(And, a, keep), ShiftLeft(imm, hw), i);
    ComplementBit(ShiftLeft(0xFFFF, hw), 64, i);
    ShiftLeftBit(0xFFFF, hw, i);
    ShiftLeftBit(imm, hw, i);
    if i >= hw {
      Ones(16, i - hw);
      if i - hw >= 16 {
        BitBeyond(imm, 16, i - hw);
      }
    }
  }

  /** MVN, with a zero first operand, inverts every bit of the second. */
  lemma MvnInverts(b: Word, hw: nat, i: nat)
    requires i < 64
    ensures Bit(AluResult(INV_OP, 0, b, hw), i) == !Bit(b, i)
  {
    Pow2Is64();
    WordOpBit(Or, 0, Complement(b), i);
    ComplementBit(b, 64, i);
    BitBeyond(0, 0, i);
  }

  // What the operations do to every bit.

  lemma LogicBits(a: Word, b: Word, hw: nat, i: nat)
    requires i < 64
    ensures Bit(AluResult(AND_OP, a, b, hw), i) <==> Bit(a, i) && Bit(b, i)
    ensures Bit(AluResult(OR_OP, a, b, hw), i) <==> Bit(a, i) || Bit(b, i)
    ensures Bit(AluResult(EOR_OP, a, b, hw), i) <==> (Bit(a, i) != Bit(b, i))
    ensures Bit(AluResult(INV_OP, a, b, hw), i) <==> Bit(a, i) || !Bit(b, i)
  {
    hide Bit, WordOp;
    Pow2Is64();
    WordOpBit(And, a, b, i);
    WordOpBit(Or, a, b, i);
    WordOpBit(Xor, a, b, i);
    WordOpBit(Or, a, Complement(b), i);
    ComplementBit(b, 64, i);
  }

  /** A register exclusive-or itself is zero. */
  lemma EorSelf(a: Word, hw: nat)
    ensures AluResult(EOR_OP, a, a, hw) == 0
  {
    hide Bit, WordOp;
    Pow2Is64();
    forall i | 0 <= i < 64 ensures Bit(AluResult(EOR_OP, a, a, hw), i) == Bit(0, i) {
      LogicBits(a, a, hw, i);
      BitBeyond(0, 0, i);
    }
    SameBits(AluResult(EOR_OP, a, a, hw), 0, 64);
  }

  /** The amount counts modulo 64; what is shifted in is zero, or the sign. */
  lemma ShiftBits(a: Word, b: Word, hw: nat, i: nat)
    requires i < 64
    ensures Bit(AluResult(LSL_OP, a, b, hw), i) <==> i >= b % 64 && Bit(a, i - b % 64)
    ensures Bit(AluResult(LSR_OP, a, b, hw), i) <==> i + b % 64 < 64 && Bit(a, i + b % 64)
    ensures Bit(AluResult(ASR_OP, a, b, hw), i) <==> Bit(a, if i + b % 64 < 64 then i + b % 64 else 63)
  {
    hide Bit;
    var k := b % 64;
    Pow2Is64();
    ShiftLeftBit(a, k, i);
    HalveBit(a, k, i);
    if i + k >= 64 { BitBeyond(a, 64, i + k); }
    AsrBit(a, k, i);
  }

  lemma TopBit(a: Word)
    ensures Bit(a, 63) <==> a >= TWO63
  {
    HalveBit(a, 63, 0);
    HalveIsDivision(a, 63);
    Pow2Is64();
    assert Pow2(64) == 2 * Pow2(63);
  }

  lemma AsrBit(a: Word, k: nat, i: nat)
    requires k < 64 && i < 64
    ensures Bit(Wrap(Signed(a) / Pow2(k)), i) <==> Bit(a, if i + k < 64 then i + k else 63)
  {
    hide Bit, Pow2;
    TopBit(a);
    if a < TWO63 {
      Pow2Is64();
      HalveIsDivision(a, k);
      HalveBit(a, k, i);
      NotBelowZero(a, Pow2(k));
      if i + k >= 64 { BitBeyond(a, 64, i + k); }
    } else {
      NegativeAsrBit(a, k, i);
    }
  }

  /** The complement is shifted, and what comes out is complemented. */
  lemma NegativeAsrBit(a: Word, k: nat, i: nat)
    requires k < 64 && i < 64 && a >= TWO63
    ensures Bit(Wrap(Signed(a) / Pow2(k)), i) <==> (i + k < 64 ==> Bit(a, i + k))
  {
    hide Bit, Pow2, Halve, Wrap;
    var c := Complement(a);
    Pow2Is64();
    NegativeShift(c, Pow2(k));
    HalveIsDivision(c, k);
    HalveBit(c, k, i);
    ComplementBit(Halve(c, k), 64, i);
    if i + k < 64 { ComplementBit(a, 64, i + k); } else { BitBeyond(c, 64, i + k); }
  }

  lemma NotBelowZero(a: Word, d: nat)
    requires d >= 1
    ensures 0 <= a / d <= a && Wrap(a / d) == a / d
  {
    DivUniqueBound(a, d);
  }

  lemma DivUniqueBound(a: nat, d: nat)
    requires d >= 1
    ensures 0 <= a / d <= a
  {
    var q := a / d;
    assert a == d * q + a % d;
    assert d * q == q + (d - 1) * q;
  }

  /** An arithmetic shift of a negative number, through its complement. */
  lemma NegativeShift(c: Word, d: nat)
    requires d >= 1 && c < TWO63
    ensures Wrap((-1 - c) / d) == Complement(c / d)
  {
    var q := c / d;
    DivUniqueBound(c, d);
    assert c == d * q + c % d;
    assert d * (-1 - q) == 0 - d - d * q;
    DivUnique(-1 - c, d, -1 - q);
  }
}
