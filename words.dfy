/** Option type used for results that may be absent (a fault, an unknown opcode). */
module Options {
  datatype Option<+T> = None | Some(value: T)
}

/**
 * Machine integers of the 16-bit CPU: `byte` and `word`, the truncations C
 * applies when an `int` is stored into them, and the split of a word into
 * its two bytes.
 */
module Words {
  /** An unsigned 8-bit value (`byte`). */
  type Byte = b: int | 0 <= b < 0x100

  /** An unsigned 16-bit value (`word`). */
  type Word = w: int | 0 <= w < 0x1_0000

  /**
   * Storing a C `int` into a `byte`, or masking it with `& 0xFF`: on two's
   * complement this is the Euclidean remainder modulo 256.
   */
  function Wrap8(x: int): (b: Byte)
    ensures 0 <= x < 0x100 ==> b == x
    ensures x < 0 && -0x100 <= x ==> b == x + 0x100
  {
    x % 0x100
  }

  /** Storing a C `int` into a `word`, or masking it with `& 0xFFFF`. */
  function Wrap16(x: int): (w: Word)
    ensures 0 <= x < 0x1_0000 ==> w == x
    ensures 0x1_0000 <= x < 0x2_0000 ==> w == x - 0x1_0000
    ensures x < 0 && -0x1_0000 <= x ==> w == x + 0x1_0000
  {
    x % 0x1_0000
  }

  /** The low byte of a word, `w & 0x00FF`. */
  function Lo(w: Word): Byte
  {
    w % 0x100
  }

  /** The high byte of a word, `(w & 0xFF00) >> 8`. */
  function Hi(w: Word): Byte
  {
    w / 0x100
  }

  /** The word whose high byte is `hi` and low byte is `lo`, `(hi << 8) + lo`. */
  function Join(hi: Byte, lo: Byte): (w: Word)
    ensures Hi(w) == hi && Lo(w) == lo
  {
    hi * 0x100 + lo
  }

  /** Splitting a word into its bytes and joining them again gives the word back. */
  lemma SplitJoin(w: Word)
    ensures Join(Hi(w), Lo(w)) == w
  {
  }

  // ---------------------------------------------------------------------
  // Facts about C's integer arithmetic on non-negative values

  /** The product of two non-negative numbers is non-negative. */
  lemma {:induction false} MulNonnegative(a: nat, b: nat)
    ensures a * b >= 0
    decreases b
  {
    if b > 0 {
      MulNonnegative(a, b - 1);
      assert a * b == a * (b - 1) + a;
    }
  }

  /** A nonzero multiple of a positive number is at least that number away from zero. */
  lemma MulAwayFromZero(d: int, k: int)
    requires 0 < d && k != 0
    ensures d * k >= d || d * k <= -d
  {
    if k > 0 {
      MulNonnegative(d, k - 1);
      assert d * k == d + d * (k - 1);
    } else {
      MulNonnegative(d, -k - 1);
      assert d * k == -d - d * (-k - 1);
    }
  }

  /** Euclidean division is determined by quotient and remainder. */
  lemma DivMod(x: int, d: int, q: int, r: int)
    requires 0 < d && x == d * q + r && 0 <= r < d
    ensures x / d == q && x % d == r
  {
    var q' := x / d;
    assert d * (q' - q) == r - x % d;
    if q' != q {
      MulAwayFromZero(d, q' - q);
    }
  }

  /** Bitwise `&`, `|` and `^` on 16-bit and 8-bit operands. */
  function And16(a: Word, b: Word): Word { (a as bv16 & b as bv16) as int }
  function Or16(a: Word, b: Word): Word { (a as bv16 | b as bv16) as int }
  function Xor16(a: Word, b: Word): Word { (a as bv16 ^ b as bv16) as int }
  function And8(a: Byte, b: Byte): Byte { (a as bv8 & b as bv8) as int }
  function Or8(a: Byte, b: Byte): Byte { (a as bv8 | b as bv8) as int }
  function Xor8(a: Byte, b: Byte): Byte { (a as bv8 ^ b as bv8) as int }
}
