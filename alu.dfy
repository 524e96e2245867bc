/**
 * The arithmetic and logic of each opcode, in its 16-bit and 8-bit forms:
 * the value stored and the flags word afterwards, computed on C's promoted
 * `int` exactly as the handlers do.
 */
module Alu {
  import opened Words
  import opened Instruction

  /** The value an operation stores and the flags it leaves. */
  datatype Out = Out(value: Word, flags: RFlags)

  /** Two results (MUL and DIV) and the flags they leave. */
  datatype Pair = Pair(first: Word, second: Word, flags: RFlags)

  // ---------------------------------------------------------------------
  // ADD and INC

  /**
   * 16-bit ADD. The stored word plus the carry is the exact sum. The zero
   * flag is tested on the unwrapped sum, so it is set only when both
   * operands are zero and stays clear for 0xFFFF + 1.
   */
  function Add16(a: Word, b: Word, f: RFlags): (r: Out)
    ensures r.value + (if r.flags.carry then 0x1_0000 else 0) == a + b
    ensures r.flags.zero <==> a == 0 && b == 0
    ensures r.flags == f.(carry := r.flags.carry, zero := r.flags.zero)
  {
    var res := a + b;
    Out(Wrap16(res), f.(carry := res > 0xFFFF, zero := res == 0))
  }

  /** 8-bit ADD: the sum is masked before the zero test. */
  function Add8(a: Byte, b: Byte, f: RFlags): (r: Out)
    ensures r.value < 0x100
    ensures r.value + (if r.flags.carry then 0x100 else 0) == a + b
    ensures r.flags.zero <==> r.value == 0
    ensures r.flags.zero <==> (a + b) % 0x100 == 0
    ensures r.flags == f.(carry := r.flags.carry, zero := r.flags.zero)
  {
    var res := a + b;
    Out(Wrap8(res), f.(carry := res > 0xFF, zero := Wrap8(res) == 0))
  }

  /** 16-bit INC: carry only out of 0xFFFF; the unwrapped sum is never zero, so zero is always cleared. */
  function Inc16(a: Word, f: RFlags): (r: Out)
    ensures r.value + (if r.flags.carry then 0x1_0000 else 0) == a + 1
    ensures r.flags.carry <==> a == 0xFFFF
    ensures !r.flags.zero
    ensures r.flags == f.(carry := r.flags.carry, zero := false)
  {
    var res := a + 1;
    Out(Wrap16(res), f.(carry := res > 0xFFFF, zero := res == 0))
  }

  /** 8-bit INC: like the 16-bit form, zero is tested before masking and so always cleared. */
  function Inc8(a: Byte, f: RFlags): (r: Out)
    ensures r.value < 0x100
    ensures r.value + (if r.flags.carry then 0x100 else 0) == a + 1
    ensures r.flags.carry <==> a == 0xFF
    ensures !r.flags.zero
    ensures r.flags == f.(carry := r.flags.carry, zero := false)
  {
    var res := a + 1;
    Out(Wrap8(res), f.(carry := res > 0xFF, zero := res == 0))
  }

  // ---------------------------------------------------------------------
  // SUB, DEC and CMP

  /** 16-bit SUB: negative is the unsigned borrow, zero means equal operands. */
  function Sub16(a: Word, b: Word, f: RFlags): (r: Out)
    ensures r.value - (if r.flags.negative then 0x1_0000 else 0) == a - b
    ensures r.flags.negative <==> a < b
    ensures r.flags.zero <==> a == b
    ensures r.flags == f.(negative := r.flags.negative, zero := r.flags.zero)
  {
    var res := a - b;
    Out(Wrap16(res), f.(negative := res < 0, zero := res == 0))
  }

  /** 8-bit SUB. */
  function Sub8(a: Byte, b: Byte, f: RFlags): (r: Out)
    ensures r.value < 0x100
    ensures r.value - (if r.flags.negative then 0x100 else 0) == a - b
    ensures r.flags.negative <==> a < b
    ensures r.flags.zero <==> a == b
    ensures r.flags == f.(negative := r.flags.negative, zero := r.flags.zero)
  {
    var res := a - b;
    Out(Wrap8(res), f.(negative := res < 0, zero := res == 0))
  }

  /** 16-bit DEC: negative exactly when decrementing zero. */
  function Dec16(a: Word, f: RFlags): (r: Out)
    ensures r.value - (if r.flags.negative then 0x1_0000 else 0) == a - 1
    ensures r.flags.negative <==> a == 0
    ensures r.flags.zero <==> a == 1
    ensures r.flags == f.(negative := r.flags.negative, zero := r.flags.zero)
  {
    var res := a - 1;
    Out(Wrap16(res), f.(negative := res < 0, zero := res == 0))
  }

  /** 8-bit DEC. */
  function Dec8(a: Byte, f: RFlags): (r: Out)
    ensures r.value < 0x100
    ensures r.value - (if r.flags.negative then 0x100 else 0) == a - 1
    ensures r.flags.negative <==> a == 0
    ensures r.flags.zero <==> a == 1
    ensures r.flags == f.(negative := r.flags.negative, zero := r.flags.zero)
  {
    var res := a - 1;
    Out(Wrap8(res), f.(negative := res < 0, zero := res == 0))
  }

  /** 16-bit CMP: the flags only; zero is tested on the masked difference. */
  function Cmp16(a: Word, b: Word, f: RFlags): (g: RFlags)
    ensures g.negative <==> a < b
    ensures g.zero <==> a == b
  {
    var res := a - b;
    f.(negative := res < 0, zero := Wrap16(res) == 0)
  }

  /** 8-bit CMP. */
  function Cmp8(a: Byte, b: Byte, f: RFlags): (g: RFlags)
    ensures g.negative <==> a < b
    ensures g.zero <==> a == b
  {
    var res := a - b;
    f.(negative := res < 0, zero := Wrap8(res) == 0)
  }

  /** CMP sets the flags exactly as SUB of the same operands would. */
  lemma CmpIsSubFlags(a: Word, b: Word, c: Byte, d: Byte, f: RFlags)
    ensures Cmp16(a, b, f) == Sub16(a, b, f).flags
    ensures Cmp8(c, d, f) == Sub8(c, d, f).flags
  {
  }

  // ---------------------------------------------------------------------
  // MUL and DIV

  /** The product of two numbers below m is at most (m - 1)^2, and zero only when a factor is. */
  lemma ProductBound(a: nat, b: nat, m: nat)
    requires a < m && b < m
    ensures 0 <= a * b <= (m - 1) * (m - 1)
    ensures a * b == 0 <==> a == 0 || b == 0
  {
    MulNonnegative(a, b);
    MulNonnegative(m - 1 - a, b);
    MulNonnegative(m - 1, m - 1 - b);
    if a != 0 && b != 0 {
      MulAwayFromZero(a, b);
    }
  }

  /**
   * 16-bit MUL on the exact product: the low word and high word together
   * are the product; overflow means the high word is nonzero; the carry
   * test against UINT32_MAX never fires.
   */
  function Mul16(a: Word, b: Word, f: RFlags): (r: Pair)
    ensures r.first + 0x1_0000 * r.second == a * b
    ensures r.flags.overflow <==> r.second != 0
    ensures r.flags.overflow <==> a * b > 0xFFFF
    ensures !r.flags.carry
    ensures r.flags.zero <==> a == 0 || b == 0
    ensures r.flags == f.(carry := false, zero := r.flags.zero, overflow := r.flags.overflow)
  {
    ProductBound(a, b, 0x1_0000);
    var res := a * b;
    var lo := res % 0x1_0000;
    var hi := (res / 0x1_0000) % 0x1_0000;
    Pair(lo, hi, f.(carry := res > 0xFFFF_FFFF, zero := res == 0, overflow := hi != 0))
  }

  /**
   * 8-bit MUL: carry and zero are only ever set, never cleared; the carry
   * test cannot fire, so carry keeps its old value.
   */
  function Mul8(a: Byte, b: Byte, f: RFlags): (r: Pair)
    ensures r.first < 0x100 && r.second < 0x100
    ensures r.first + 0x100 * r.second == a * b
    ensures r.flags.overflow <==> a * b > 0xFF
    ensures r.flags.carry == f.carry
    ensures r.flags.zero <==> f.zero || a == 0 || b == 0
    ensures r.flags == f.(zero := r.flags.zero, overflow := r.flags.overflow)
  {
    ProductBound(a, b, 0x100);
    var res := a * b;
    var f1 := if res > 0xFFFF then f.(carry := true) else f;
    var f2 := if res == 0 then f1.(zero := true) else f1;
    var lo := res % 0x100;
    var hi := (res / 0x100) % 0x100;
    assert res / 0x100 < 0x100;
    Pair(lo, hi, f2.(overflow := hi != 0))
  }

  /** The quotient is at most the dividend, and zero exactly when the dividend is below the divisor. */
  lemma QuotientZero(a: nat, b: nat)
    requires b != 0
    ensures a / b <= a
    ensures a / b == 0 <==> a < b
  {
    var q := a / b;
    MulNonnegative(q, b - 1);
    assert q * b == q * (b - 1) + q;
    if q != 0 {
      MulNonnegative(q - 1, b);
      assert q * b == (q - 1) * b + b;
    }
  }

  /**
   * 16-bit DIV by a nonzero divisor: quotient and remainder satisfy the
   * division identity, zero means the dividend is below the divisor and
   * carry means the division is not exact.
   */
  function Div16(a: Word, b: Word, f: RFlags): (r: Pair)
    requires b != 0
    ensures r.first * b + r.second == a && r.second < b
    ensures r.flags.zero <==> a < b
    ensures r.flags.carry <==> r.first * b != a
    ensures r.flags == f.(zero := r.flags.zero, carry := r.flags.carry)
  {
    var res := a / b;
    var rest := a % b;
    QuotientZero(a, b);
    Pair(res, rest, f.(zero := res == 0, carry := rest != 0))
  }

  /** 8-bit DIV by a nonzero divisor. */
  function Div8(a: Byte, b: Byte, f: RFlags): (r: Pair)
    requires b != 0
    ensures r.first < 0x100 && r.second < 0x100
    ensures r.first * b + r.second == a && r.second < b
    ensures r.flags.zero <==> a < b
    ensures r.flags.carry <==> r.first * b != a
    ensures r.flags == f.(zero := r.flags.zero, carry := r.flags.carry)
  {
    var res := a / b;
    var rest := a % b;
    QuotientZero(a, b);
    Pair(res, rest, f.(zero := res == 0, carry := rest != 0))
  }

  // ---------------------------------------------------------------------
  // NOT, AND, OR, XOR, SHL, SHR

  /**
   * 16-bit NOT: `~a` truncated to a word, which on an unsigned word is
   * 0xFFFF - a (every bit flipped); zero only for 0xFFFF.
   */
  function Not16(a: Word, f: RFlags): (r: Out)
    ensures r.value == 0xFFFF - a
    ensures r.flags.zero <==> a == 0xFFFF
    ensures r.flags == f.(zero := r.flags.zero)
  {
    var res := 0xFFFF - a;
    Out(res, f.(zero := res == 0))
  }

  /** 8-bit NOT: `~a` truncated to a byte, 0xFF - a; zero only for 0xFF. */
  function Not8(a: Byte, f: RFlags): (r: Out)
    ensures r.value < 0x100
    ensures r.value == 0xFF - a
    ensures r.flags.zero <==> a == 0xFF
    ensures r.flags == f.(zero := r.flags.zero)
  {
    var res := 0xFF - a;
    Out(res, f.(zero := res == 0))
  }

  /** NOT applied twice gives the operand back. */
  lemma NotInvolution(a: Word, b: Byte, f: RFlags)
    ensures Not16(Not16(a, f).value, f).value == a
    ensures Not8(Not8(b, f).value, f).value == b
  {
  }

  /** 16-bit and 8-bit AND: zero is set when either operand is zero. */
  function AndOp(is16: bool, a: Word, b: Word, f: RFlags): (r: Out)
    requires !is16 ==> a < 0x100 && b < 0x100
    ensures !is16 ==> r.value < 0x100
    ensures r.flags.zero <==> r.value == 0
    ensures a == 0 || b == 0 ==> r.flags.zero
    ensures r.flags == f.(zero := r.flags.zero)
  {
    var res := if is16 then And16(a, b) else And8(a, b);
    Out(res, f.(zero := res == 0))
  }

  /** 16-bit and 8-bit OR: zero exactly when both operands are zero. */
  function OrOp(is16: bool, a: Word, b: Word, f: RFlags): (r: Out)
    requires !is16 ==> a < 0x100 && b < 0x100
    ensures !is16 ==> r.value < 0x100
    ensures r.flags.zero <==> a == 0 && b == 0
    ensures r.flags == f.(zero := r.flags.zero)
  {
    var res := if is16 then Or16(a, b) else Or8(a, b);
    Out(res, f.(zero := res == 0))
  }

  /** 16-bit and 8-bit XOR: a register XORed with itself is cleared and sets zero. */
  function XorOp(is16: bool, a: Word, b: Word, f: RFlags): (r: Out)
    requires !is16 ==> a < 0x100 && b < 0x100
    ensures !is16 ==> r.value < 0x100
    ensures r.flags.zero <==> r.value == 0
    ensures a == b ==> r.value == 0 && r.flags.zero
    ensures r.flags == f.(zero := r.flags.zero)
  {
    var res := if is16 then Xor16(a, b) else Xor8(a, b);
    Out(res, f.(zero := res == 0))
  }

  /** 16-bit SHL by one: bit 15 is lost, so zero means the low 15 bits were clear. */
  function Shl16(a: Word, f: RFlags): (r: Out)
    ensures r.value == 2 * (a % 0x8000)
    ensures r.flags.zero <==> a % 0x8000 == 0
    ensures r.flags == f.(zero := r.flags.zero)
  {
    var res := Wrap16(a * 2);
    Out(res, f.(zero := res == 0))
  }

  /** 8-bit SHL by one: bit 7 is lost. */
  function Shl8(a: Byte, f: RFlags): (r: Out)
    ensures r.value == 2 * (a % 0x80)
    ensures r.flags.zero <==> a % 0x80 == 0
    ensures r.flags == f.(zero := r.flags.zero)
  {
    var res := Wrap8(a * 2);
    Out(res, f.(zero := res == 0))
  }

  /** SHR by one (either width): bit 0 is lost, so zero means the operand was 0 or 1. */
  function Shr(a: Word, f: RFlags): (r: Out)
    ensures 2 * r.value <= a <= 2 * r.value + 1
    ensures r.flags.zero <==> a <= 1
    ensures r.flags == f.(zero := r.flags.zero)
  {
    var res := a / 2;
    Out(res, f.(zero := res == 0))
  }
}
