/** Machine words as unsigned integers with their width written out, and the few
    conversions the emulator performs on them. */
module Words {

  const TWO64: int := 0x1_0000_0000_0000_0000
  const TWO63: int := 0x8000_0000_0000_0000

  type Word = x: int | 0 <= x < 0x1_0000_0000_0000_0000
  type Insn = x: int | 0 <= x < 0x1_0000_0000
  type Byte = x: int | 0 <= x < 256

  /** The wrap-around every 64-bit unsigned operation performs. */
  function Wrap(x: int): Word {
    x % TWO64
  }

  /** The value of a word read as a two's complement number. */
  function Signed(w: Word): int {
    if w < TWO63 then w else w - TWO64
  }

  function Pow2(n: nat): (p: nat)
    ensures p >= 1
  {
    if n == 0 then 1 else 2 * Pow2(n - 1)
  }

  /** The unsigned field of `width` bits that starts at bit `from`. */
  function Field(bits: Insn, from: nat, width: nat): (f: nat)
    ensures f < Pow2(width)
  {
    bits / Pow2(from) % Pow2(width)
  }

  /** The same field, read as a two's complement number of that width. */
  function SignedField(bits: Insn, from: nat, width: nat): int
    requires width > 0
  {
    var f := Field(bits, from, width);
    if f < Pow2(width - 1) then f else f - Pow2(width)
  }
}
