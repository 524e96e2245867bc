/**
 * The instruction encoding of the CPU: opcode values, the operand
 * specifier byte and the layout of the flags word.
 */
module Instruction {
  import opened Options
  import opened Words

  /** The opcodes of the instruction set (`enum OP`). */
  datatype Opcode =
    | Nop | Ld | Lp | Sd | Sp | Set | Push | Pull
    | Add | Sub | Mul | Div | Not | And | Or | Xor | Shl | Shr | Inc | Dec | Cmp
    | Jmp | Jiz | Jnz | Jin | Jnn | Jic | Jnc | Jio | Jno
    | Call | Retf | Int | Halt | Stop
    | Cfl | Czf | Cnf | Ccf | Cof | Szf | Snf | Scf | Sof
    | Wr | Rd

  /** The byte value of each opcode. */
  function Code(op: Opcode): Byte
  {
    match op
    case Nop => 0x00
    case Ld => 0x01
    case Lp => 0x02
    case Sd => 0x03
    case Sp => 0x04
    case Set => 0x05
    case Push => 0x06
    case Pull => 0x07
    case Add => 0x10
    case Sub => 0x11
    case Mul => 0x12
    case Div => 0x13
    case Not => 0x14
    case And => 0x15
    case Or => 0x16
    case Xor => 0x17
    case Shl => 0x18
    case Shr => 0x19
    case Inc => 0x1A
    case Dec => 0x1B
    case Cmp => 0x1F
    case Jmp => 0x20
    case Jiz => 0x21
    case Jnz => 0x22
    case Jin => 0x23
    case Jnn => 0x24
    case Jic => 0x25
    case Jnc => 0x26
    case Jio => 0x27
    case Jno => 0x28
    case Call => 0x30
    case Retf => 0x31
    case Int => 0x32
    case Halt => 0x33
    case Stop => 0x34
    case Cfl => 0x40
    case Czf => 0x41
    case Cnf => 0x42
    case Ccf => 0x43
    case Cof => 0x44
    case Szf => 0x45
    case Snf => 0x46
    case Scf => 0x47
    case Sof => 0x48
    case Wr => 0x50
    case Rd => 0x51
  }

  /**
   * The `switch` on the opcode byte: the opcode with that value, or None
   * for a byte that no `case` matches.
   */
  function Lookup(b: Byte): (r: Option<Opcode>)
    ensures r.Some? ==> Code(r.value) == b
  {
    if b < 0x10 then LookupTransfer(b)
    else if b < 0x20 then LookupArith(b)
    else if b < 0x30 then LookupJump(b)
    else if b < 0x40 then LookupControl(b)
    else if b < 0x50 then LookupFlags(b)
    else LookupIo(b)
  }

  /** The `case`s for the transfer opcodes, below 0x10. */
  function LookupTransfer(b: Byte): (r: Option<Opcode>)
    requires 0x00 <= b < 0x10
    ensures r.Some? ==> Code(r.value) == b
  {
    match b
    case 0x00 => assert Code(Nop) == 0x00; Some(Nop)
    case 0x01 => assert Code(Ld) == 0x01; Some(Ld)
    case 0x02 => assert Code(Lp) == 0x02; Some(Lp)
    case 0x03 => assert Code(Sd) == 0x03; Some(Sd)
    case 0x04 => assert Code(Sp) == 0x04; Some(Sp)
    case 0x05 => assert Code(Set) == 0x05; Some(Set)
    case 0x06 => assert Code(Push) == 0x06; Some(Push)
    case 0x07 => assert Code(Pull) == 0x07; Some(Pull)
    case _ => None
  }

  /** The `case`s for the arithmetic opcodes, 0x10 to 0x1F. */
  function LookupArith(b: Byte): (r: Option<Opcode>)
    requires 0x10 <= b < 0x20
    ensures r.Some? ==> Code(r.value) == b
  {
    match b
    case 0x10 => assert Code(Add) == 0x10; Some(Add)
    case 0x11 => assert Code(Sub) == 0x11; Some(Sub)
    case 0x12 => assert Code(Mul) == 0x12; Some(Mul)
    case 0x13 => assert Code(Div) == 0x13; Some(Div)
    case 0x14 => assert Code(Not) == 0x14; Some(Not)
    case 0x15 => assert Code(And) == 0x15; Some(And)
    case 0x16 => assert Code(Or) == 0x16; Some(Or)
    case 0x17 => assert Code(Xor) == 0x17; Some(Xor)
    case 0x18 => assert Code(Shl) == 0x18; Some(Shl)
    case 0x19 => assert Code(Shr) == 0x19; Some(Shr)
    case 0x1A => assert Code(Inc) == 0x1A; Some(Inc)
    case 0x1B => assert Code(Dec) == 0x1B; Some(Dec)
    case 0x1F => assert Code(Cmp) == 0x1F; Some(Cmp)
    case _ => None
  }

  /** The `case`s for the jump opcodes, 0x20 to 0x2F. */
  function LookupJump(b: Byte): (r: Option<Opcode>)
    requires 0x20 <= b < 0x30
    ensures r.Some? ==> Code(r.value) == b
  {
    match b
    case 0x20 => assert Code(Jmp) == 0x20; Some(Jmp)
    case 0x21 => assert Code(Jiz) == 0x21; Some(Jiz)
    case 0x22 => assert Code(Jnz) == 0x22; Some(Jnz)
    case 0x23 => assert Code(Jin) == 0x23; Some(Jin)
    case 0x24 => assert Code(Jnn) == 0x24; Some(Jnn)
    case 0x25 => assert Code(Jic) == 0x25; Some(Jic)
    case 0x26 => assert Code(Jnc) == 0x26; Some(Jnc)
    case 0x27 => assert Code(Jio) == 0x27; Some(Jio)
    case 0x28 => assert Code(Jno) == 0x28; Some(Jno)
    case _ => None
  }

  /** The `case`s for the call and machine-control opcodes, 0x30 to 0x3F. */
  function LookupControl(b: Byte): (r: Option<Opcode>)
    requires 0x30 <= b < 0x40
    ensures r.Some? ==> Code(r.value) == b
  {
    match b
    case 0x30 => assert Code(Call) == 0x30; Some(Call)
    case 0x31 => assert Code(Retf) == 0x31; Some(Retf)
    case 0x32 => assert Code(Int) == 0x32; Some(Int)
    case 0x33 => assert Code(Halt) == 0x33; Some(Halt)
    case 0x34 => assert Code(Stop) == 0x34; Some(Stop)
    case _ => None
  }

  /** The `case`s for the flag opcodes, 0x40 to 0x4F. */
  function LookupFlags(b: Byte): (r: Option<Opcode>)
    requires 0x40 <= b < 0x50
    ensures r.Some? ==> Code(r.value) == b
  {
    match b
    case 0x40 => assert Code(Cfl) == 0x40; Some(Cfl)
    case 0x41 => assert Code(Czf) == 0x41; Some(Czf)
    case 0x42 => assert Code(Cnf) == 0x42; Some(Cnf)
    case 0x43 => assert Code(Ccf) == 0x43; Some(Ccf)
    case 0x44 => assert Code(Cof) == 0x44; Some(Cof)
    case 0x45 => assert Code(Szf) == 0x45; Some(Szf)
    case 0x46 => assert Code(Snf) == 0x46; Some(Snf)
    case 0x47 => assert Code(Scf) == 0x47; Some(Scf)
    case 0x48 => assert Code(Sof) == 0x48; Some(Sof)
    case _ => None
  }

  /** The `case`s for the I/O opcodes, from 0x50 up. */
  function LookupIo(b: Byte): (r: Option<Opcode>)
    requires 0x50 <= b
    ensures r.Some? ==> Code(r.value) == b
  {
    match b
    case 0x50 => assert Code(Wr) == 0x50; Some(Wr)
    case 0x51 => assert Code(Rd) == 0x51; Some(Rd)
    case _ => None
  }

  /** Every opcode is found again from its byte value. */
  lemma LookupCode(op: Opcode)
    ensures Lookup(Code(op)) == Some(op)
  {
    match op
    case Nop | Ld | Lp | Sd | Sp | Set | Push | Pull =>
    case Add | Sub | Mul | Div | Not | And | Or | Xor | Shl | Shr | Inc | Dec | Cmp =>
    case Jmp | Jiz | Jnz | Jin | Jnn | Jic | Jnc | Jio | Jno =>
    case Call | Retf | Int | Halt | Stop =>
    case Cfl | Czf | Cnf | Ccf | Cof | Szf | Snf | Scf | Sof =>
    case Wr | Rd =>
  }

  /** The opcode values are pairwise distinct. */
  lemma CodesDistinct(a: Opcode, b: Opcode)
    requires a != b
    ensures Code(a) != Code(b)
  {
    LookupCode(a);
    LookupCode(b);
  }

  // ---------------------------------------------------------------------
  // The operand specifier byte

  /** An index into the register file, 0 to 7. */
  type RegIndex = i: int | 0 <= i < 8

  /** Bit 7 of the specifier: the operands are 16 bits wide (`IS16`). */
  predicate IS16(spec: bv8)
  {
    spec & 0x80 != 0
  }

  /** Bit 0 of the specifier: the second operand is an immediate (`HASI`). */
  predicate HASI(spec: bv8)
  {
    spec & 0x01 != 0
  }

  /** Bits 6-4 of the specifier: the first register (`R1`). */
  function R1(spec: bv8): (r: nat)
    ensures r < 8
  {
    ((spec & 0x70) >> 4) as int
  }

  /** Bits 3-1 of the specifier: the second register (`R2`). */
  function R2(spec: bv8): (r: nat)
    ensures r < 8
  {
    ((spec & 0x0E) >> 1) as int
  }

  /** `IS16` reads bit 7 only and `HASI` bit 0 only. */
  lemma WidthAndImmediateBits(s: bv8, t: bv8)
    ensures s & 0x80 == t & 0x80 ==> IS16(s) == IS16(t)
    ensures s & 0x01 == t & 0x01 ==> HASI(s) == HASI(t)
    ensures IS16(s) <==> s >= 0x80
  {
  }

  /** A decoded specifier byte. */
  datatype Operands = Operands(is16: bool, hasImm: bool, r1: RegIndex, r2: RegIndex)

  /** Decoding with the four macros. */
  function Decode(spec: bv8): Operands
  {
    Operands(IS16(spec), HASI(spec), R1(spec), R2(spec))
  }

  /** Encoding as `bit7 | r1 << 4 | r2 << 1 | bit0`. */
  function Encode(o: Operands): bv8
  {
    (if o.is16 then 0x80 else 0) | ((o.r1 as bv8) << 4) | ((o.r2 as bv8) << 1) | (if o.hasImm then 1 else 0)
  }

  /** Decoding an encoded specifier returns the same four fields. */
  lemma DecodeEncode(o: Operands)
    ensures Decode(Encode(o)) == o
  {
    var s := Encode(o);
    var a, b := o.r1 as bv8, o.r2 as bv8;
    assert (s & 0x70) >> 4 == a;
    assert (s & 0x0E) >> 1 == b;
  }

  /** Bits 6-4 come back from `R1` shifted into place. */
  lemma R1Bits(spec: bv8)
    ensures (R1(spec) as bv8) << 4 == spec & 0x70
  {
    var x := (spec & 0x70) >> 4;
    assert x < 8;
    assert (x as int) as bv8 == x;
  }

  /** Bits 3-1 come back from `R2` shifted into place. */
  lemma R2Bits(spec: bv8)
    ensures (R2(spec) as bv8) << 1 == spec & 0x0E
  {
    var x := (spec & 0x0E) >> 1;
    assert x < 8;
    assert (x as int) as bv8 == x;
  }

  /** Every byte is the encoding of its decoding: the eight bits are all used. */
  lemma EncodeDecode(spec: bv8)
    ensures Encode(Decode(spec)) == spec
  {
    R1Bits(spec);
    R2Bits(spec);
    assert (if IS16(spec) then 0x80 else 0) == spec & 0x80;
    assert (if HASI(spec) then 1 else 0) == spec & 0x01;
    assert spec == (spec & 0x80) | (spec & 0x70) | (spec & 0x0E) | (spec & 0x01);
  }

  // ---------------------------------------------------------------------
  // The flags word (`RFlags`)

  /** The eleven unused high bits of the flags word. */
  type Unused = u: int | 0 <= u < 0x800

  /**
   * The bitfield view of the flags word: zero, negative, carry, overflow
   * and int_enable at bits 0 to 4, then eleven unused bits.
   */
  datatype RFlags = RFlags(zero: bool, negative: bool, carry: bool, overflow: bool, intEnable: bool, unused: Unused)

  function Bit(b: bool): int { if b then 1 else 0 }

  /** The `value` view of the union: the word the bitfields occupy. */
  function Pack(r: RFlags): Word
  {
    Bit(r.zero) + 2 * Bit(r.negative) + 4 * Bit(r.carry) + 8 * Bit(r.overflow) + 16 * Bit(r.intEnable) + 32 * r.unused
  }

  /** The bitfield view of a flags word. */
  function Unpack(w: Word): RFlags
  {
    RFlags(w % 2 == 1, w / 2 % 2 == 1, w / 4 % 2 == 1, w / 8 % 2 == 1, w / 16 % 2 == 1, w / 32)
  }

  /**
   * Reading back the bitfields of a packed flags word gives the same
   * fields: each field owns its own bits, so writing one field of the
   * union leaves every other bit of the word unchanged.
   */
  lemma UnpackPack(r: RFlags)
    ensures Unpack(Pack(r)) == r
  {
    var w := Pack(r);
    var z, n, c, o, i, u := Bit(r.zero), Bit(r.negative), Bit(r.carry), Bit(r.overflow), Bit(r.intEnable), r.unused;
    DivMod(w, 2, n + 2 * c + 4 * o + 8 * i + 16 * u, z);
    DivMod(w, 4, c + 2 * o + 4 * i + 8 * u, z + 2 * n);
    DivMod(w, 8, o + 2 * i + 4 * u, z + 2 * n + 4 * c);
    DivMod(w, 16, i + 2 * u, z + 2 * n + 4 * c + 8 * o);
    DivMod(w, 32, u, z + 2 * n + 4 * c + 8 * o + 16 * i);
    DivMod(n + 2 * c + 4 * o + 8 * i + 16 * u, 2, c + 2 * o + 4 * i + 8 * u, n);
    DivMod(c + 2 * o + 4 * i + 8 * u, 2, o + 2 * i + 4 * u, c);
    DivMod(o + 2 * i + 4 * u, 2, i + 2 * u, o);
    DivMod(i + 2 * u, 2, u, i);
  }

  /** Every word is the packing of its bitfields. */
  lemma PackUnpack(w: Word)
    ensures Pack(Unpack(w)) == w
  {
    var a1 := w / 2;
    var a2 := a1 / 2;
    var a3 := a2 / 2;
    var a4 := a3 / 2;
    var a5 := a4 / 2;
    var b0, b1, b2, b3, b4 := w % 2, a1 % 2, a2 % 2, a3 % 2, a4 % 2;
    assert w == b0 + 2 * b1 + 4 * b2 + 8 * b3 + 16 * b4 + 32 * a5;
    DivMod(w, 4, a2, b0 + 2 * b1);
    DivMod(w, 8, a3, b0 + 2 * b1 + 4 * b2);
    DivMod(w, 16, a4, b0 + 2 * b1 + 4 * b2 + 8 * b3);
    DivMod(w, 32, a5, b0 + 2 * b1 + 4 * b2 + 8 * b3 + 16 * b4);
    var r := Unpack(w);
    assert Bit(r.zero) == b0 && Bit(r.negative) == b1 && Bit(r.carry) == b2;
    assert Bit(r.overflow) == b3 && Bit(r.intEnable) == b4 && r.unused == a5;
  }

  /** Bits 4 and up of a flags word hold int_enable and the unused bits, whatever the four flags are. */
  lemma PackHigh(r: RFlags)
    ensures Pack(r) / 16 == Bit(r.intEnable) + 2 * r.unused
  {
    DivMod(Pack(r), 16, Bit(r.intEnable) + 2 * r.unused, Bit(r.zero) + 2 * Bit(r.negative) + 4 * Bit(r.carry) + 8 * Bit(r.overflow));
  }

  /** Flags that agree on int_enable and the unused bits pack to words that agree on bits 4 to 15. */
  lemma PackHighEqual(f: RFlags, g: RFlags)
    requires f.intEnable == g.intEnable && f.unused == g.unused
    ensures Pack(f) / 16 == Pack(g) / 16
  {
    PackHigh(f);
    PackHigh(g);
  }

  /** The flag bits sit at bits 0 to 4: each one alone packs to its power of two. */
  lemma FlagBits()
    ensures Pack(RFlags(true, false, false, false, false, 0)) == 0x01
    ensures Pack(RFlags(false, true, false, false, false, 0)) == 0x02
    ensures Pack(RFlags(false, false, true, false, false, 0)) == 0x04
    ensures Pack(RFlags(false, false, false, true, false, 0)) == 0x08
    ensures Pack(RFlags(false, false, false, false, true, 0)) == 0x10
    ensures Pack(RFlags(false, false, false, false, false, 1)) == 0x20
  {
  }
}
