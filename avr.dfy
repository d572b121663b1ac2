/**
 * Machine integers of the AVR target. `int` and `unsigned int` are 16 bits
 * wide there, so every arithmetic result that the firmware stores back into a
 * `uint16_t` is reduced modulo 2^16, and that reduction is written out here.
 */
module Avr {

  /** uint8_t */
  type U8 = x: int | 0 <= x < 0x100

  /** uint16_t */
  type U16 = x: int | 0 <= x < 0x1_0000

  /** int16_t */
  type I16 = x: int | -0x8000 <= x < 0x8000

  /** What storing an integer into a `uint16_t` keeps of it. */
  function Wrap16(x: int): (r: U16)
    ensures 0 <= x < 0x1_0000 ==> r == x
    ensures -0x1_0000 <= x < 0 ==> r == x + 0x1_0000
  {
    x % 0x1_0000
  }

  /** Reducing early does not change a later reduction. */
  lemma WrapSub(x: int, y: int)
    ensures Wrap16(Wrap16(x) - y) == Wrap16(x - y)
  {
    var q := x / 0x1_0000;
    assert Wrap16(x) == x - q * 0x1_0000;
    assert Wrap16(x) - y == (x - y) - q * 0x1_0000;
  }

  /** Low byte of a 16-bit word. */
  function Lo(v: U16): U8 { v % 0x100 }

  /** High byte of a 16-bit word. */
  function Hi(v: U16): U8 { v / 0x100 }

  /** The word `lo | hi << 8` assembled from two bytes. */
  function Word(lo: U8, hi: U8): U16
  {
    lo + hi * 0x100
  }

  /** Splitting a word into bytes and assembling them again are inverse. */
  lemma WordBytes(lo: U8, hi: U8, v: U16)
    ensures Word(Lo(v), Hi(v)) == v
    ensures Lo(Word(lo, hi)) == lo && Hi(Word(lo, hi)) == hi
  {
  }
}
