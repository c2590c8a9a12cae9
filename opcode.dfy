/**
 * The pure part of one interpreter cycle: assembling the 16-bit instruction
 * word from two memory bytes, and splitting it into its nibble fields.
 *
 * Words, bytes and fields are plain non-negative integers, as in the
 * interpreter, so a shift right by `k` bits is division by 2^k and a mask of
 * the low `k` bits is the remainder modulo 2^k.
 */
module Opcode {

  /** A memory cell: an unsigned 8-bit value. */
  type byte = x: int | 0 <= x < 0x100

  /** The fields of an instruction word. */
  datatype Fields = Fields(operator: int, x: int, y: int, nnn: int, nn: int, n: int)

  /**
   * The instruction word whose high byte is `hi` (the byte at PC) and whose
   * low byte is `lo` (the byte at PC + 1): big-endian, `hi << 8 | lo`.
   * Both bytes can be read back from the word, so it is a 16-bit value.
   */
  function Fetch(hi: byte, lo: byte): (op: nat)
    ensures op < 0x10000
    ensures op / 0x100 == hi && op % 0x100 == lo
  {
    hi * 0x100 + lo
  }

  /**
   * Splits a word into its fields: `operator`, `x`, `y` and `n` are its four
   * nibbles from the top, `nn` its low byte and `nnn` its low twelve bits.
   * Putting the fields back together gives the word again.
   */
  function Decode(op: nat): (f: Fields)
    requires op < 0x10000
    ensures 0 <= f.operator < 16 && 0 <= f.x < 16 && 0 <= f.y < 16 && 0 <= f.n < 16
    ensures 0 <= f.nn < 0x100 && 0 <= f.nnn < 0x1000
    ensures f.operator * 0x1000 + f.nnn == op
    ensures f.x * 0x100 + f.nn == f.nnn
    ensures f.y * 0x10 + f.n == f.nn
  {
    FieldsNest(op);
    Fields(
      operator := op / 0x1000 % 0x10,   // (op & 0xF000) >> 12
      x := op / 0x100 % 0x10,           // (op & 0x0F00) >> 8
      y := op / 0x10 % 0x10,            // (op & 0x00F0) >> 4
      nnn := op % 0x1000,               // op & 0x0FFF
      nn := op % 0x100,                 // op & 0x00FF
      n := op % 0x10)                   // op & 0x000F
  }

  /** The nibble fields of a 16-bit word nest inside one another. */
  lemma FieldsNest(op: nat)
    requires op < 0x10000
    ensures op / 0x1000 % 0x10 * 0x1000 + op % 0x1000 == op
    ensures op / 0x100 % 0x10 * 0x100 + op % 0x100 == op % 0x1000
    ensures op / 0x10 % 0x10 * 0x10 + op % 0x10 == op % 0x100
  {
    assert op / 0x1000 < 0x10;
    var q := op / 0x100;
    assert op == q * 0x100 + op % 0x100;
    assert op == q / 0x10 * 0x1000 + (q % 0x10 * 0x100 + op % 0x100);
    var p := op / 0x10;
    assert op == p * 0x10 + op % 0x10;
    assert op == p / 0x10 * 0x100 + (p % 0x10 * 0x10 + op % 0x10);
  }

  /**
   * The fields of a fetched word read straight off its two bytes: the family
   * and `x` are the high and low nibble of the byte at PC, `y` and `n` those
   * of the byte after it, which is `nn`.
   */
  lemma DecodeFetched(hi: byte, lo: byte)
    ensures var f := Decode(Fetch(hi, lo));
      && f.operator == hi / 0x10
      && f.x == hi % 0x10
      && f.y == lo / 0x10
      && f.n == lo % 0x10
      && f.nn == lo
      && f.nnn == hi % 0x10 * 0x100 + lo
  {
    var op := Fetch(hi, lo);
    assert op == hi / 0x10 * 0x1000 + (hi % 0x10 * 0x100 + lo);
    assert op == (hi * 0x10 + lo / 0x10) * 0x10 + lo % 0x10;
  }
}
