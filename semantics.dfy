/**
 * The meaning of one turn of the `emu_loop` loop, as a function from
 * machine state to machine state, and of a bounded number of turns.
 *
 * The C code performs no checks; the accesses it leaves undefined (a read
 * or write past the end of a segment, a negative stack index, a division
 * by zero) stop the machine here with a fault. A faulting instruction keeps
 * its rpp advance and the operands it already fetched; the memory and
 * output writes of the faulting instruction itself are dropped, including
 * the first byte a 16-bit PUSH or CALL at rsp = 0xFFFF would still write
 * and the bytes `puts` would print before running off the segment.
 */
module Semantics {
  import opened Options
  import opened Words
  import opened Instruction
  import opened Registers
  import Alu

  /** The size of each segment (`SPACE`, 64 KiB). */
  const SPACE: nat := 0x1_0000

  /** A code or data segment. */
  type Memory = m: seq<Byte> | |m| == SPACE witness seq(0x1_0000, _ => 0)

  /** The undefined behaviours of the C code, made explicit. */
  datatype Fault = OutOfBounds | DivisionByZero

  /** Whether the loop goes on (`exit` is false), has met STOP, or has faulted. */
  datatype Status = Running | Stopped | Faulted(fault: Fault)

  /** Everything one turn of the loop can read or change. */
  datatype State = State(code: Memory, data: Memory, regs: RegFile, out: seq<Byte>, status: Status)

  /** The state `emu_loop` starts from: the loaded segments and all registers zero. */
  function Init(code: Memory, data: Memory): State
  {
    State(code, data, Cleared, [], Running)
  }

  function Fail(s: State, f: Fault): State
  {
    s.(status := Faulted(f))
  }

  // ---------------------------------------------------------------------
  // Memory words

  /**
   * A raw `word*` load: the two bytes at `a` and `a + 1`, the low byte
   * first (a little-endian host).
   */
  function LoadWord(m: Memory, a: Word): Word
    requires a < 0xFFFF
  {
    Join(m[a + 1], m[a])
  }

  /** A raw `word*` store: the low byte at `a`, the high byte at `a + 1`. */
  function StoreWord(m: Memory, a: Word, w: Word): (m': Memory)
    requires a < 0xFFFF
    ensures LoadWord(m', a) == w
    ensures forall i :: 0 <= i < SPACE && i != a && i != a + 1 ==> m'[i] == m[i]
  {
    SplitJoin(w);
    m[a := Lo(w)][a + 1 := Hi(w)]
  }

  /**
   * A big-endian word, as `stack_get_word` and the stack read it: the high
   * byte at `a` and the low byte at `a + 1`.
   */
  function BigWord(m: Memory, a: Word): Word
    requires a < 0xFFFF
  {
    Join(m[a], m[a + 1])
  }

  /** A big-endian store, as PUSH and CALL write the stack. */
  function StoreBigWord(m: Memory, a: Word, w: Word): (m': Memory)
    requires a < 0xFFFF
    ensures BigWord(m', a) == w
    ensures m'[a] == Hi(w) && m'[a + 1] == Lo(w)
    ensures forall i :: 0 <= i < SPACE && i != a && i != a + 1 ==> m'[i] == m[i]
  {
    SplitJoin(w);
    m[a := Hi(w)][a + 1 := Lo(w)]
  }

  /**
   * What `puts(&data[a])` writes before its newline: the bytes from `a` up
   * to the first NUL, or None when no NUL follows before the end of the
   * segment.
   */
  function CString(m: seq<Byte>, a: nat): (r: Option<seq<Byte>>)
    decreases |m| - a
    ensures r.Some? ==> a + |r.value| < |m| && m[a + |r.value|] == 0
    ensures r.Some? ==> r.value == m[a..a + |r.value|]
    ensures r.Some? ==> forall i :: a <= i < a + |r.value| ==> m[i] != 0
    ensures r.None? ==> forall i :: a <= i < |m| ==> m[i] != 0
  {
    if a >= |m| then None
    else if m[a] == 0 then Some([])
    else
      match CString(m, a + 1)
      case None => None
      case Some(t) => Some([m[a]] + t)
  }

  // ---------------------------------------------------------------------
  // Operand fetch

  /** An operand's value and the registers after fetching it (rpp may have moved). */
  datatype Operand = Operand(value: Word, regs: RegFile)

  /**
   * `stack_get_word(code, &rpp)`: the big-endian immediate at rpp; rpp
   * moves on by 2. At rpp = 0xFFFF the second byte lies outside the
   * segment.
   */
  function Imm16(code: Memory, regs: RegFile): (o: Option<Operand>)
    ensures o.None? <==> regs[RPP] == 0xFFFF
    ensures o.Some? ==> o.value.regs == regs[RPP := Wrap16(regs[RPP] as int + 2)]
    ensures o.Some? ==> o.value.value == Join(code[regs[RPP]], code[regs[RPP] + 1])
  {
    var pc := regs[RPP];
    if pc == 0xFFFF then None
    else Some(Operand(BigWord(code, pc), regs[RPP := Wrap16(pc as int + 2)]))
  }

  /** `code[rpp++]`: the byte immediate at rpp; rpp moves on by 1. */
  function Imm8(code: Memory, regs: RegFile): (o: Operand)
    ensures o.value == code[regs[RPP]]
    ensures o.regs == regs[RPP := Wrap16(regs[RPP] as int + 1)]
  {
    var pc := regs[RPP];
    Operand(code[pc], regs[RPP := Wrap16(pc as int + 1)])
  }

  /**
   * `GETA1_16` / `GETA2_16` with register index `r`: the immediate when
   * the specifier says so, otherwise `*reg16bit[r]` with rpp unmoved.
   */
  function Arg16(code: Memory, regs: RegFile, hasImm: bool, r: RegIndex): (o: Option<Operand>)
    ensures !hasImm ==> o == Some(Operand(regs[r], regs))
    ensures hasImm ==> o == Imm16(code, regs)
  {
    if hasImm then Imm16(code, regs) else Some(Operand(regs[r], regs))
  }

  /** `GETA1_8` / `GETA2_8`: the byte immediate, or `*reg8bit[r]`. */
  function Arg8(code: Memory, regs: RegFile, hasImm: bool, r: RegIndex): (o: Operand)
    ensures o.value < 0x100
    ensures !hasImm ==> o == Operand(Get8(regs, r), regs)
    ensures hasImm ==> o == Imm8(code, regs)
  {
    if hasImm then Imm8(code, regs) else Operand(Get8(regs, r), regs)
  }

  // ---------------------------------------------------------------------
  // Transfers: LD, LP, SD, SP, SET, PUSH, PULL

  /** LD: the address is always register R2, never an immediate. */
  function ExecLd(s: State, d: Operands): State
  {
    var addr := s.regs[d.r2];
    if d.is16 then
      if addr == 0xFFFF then Fail(s, OutOfBounds)
      else s.(regs := s.regs[d.r1 := LoadWord(s.data, addr)])
    else
      s.(regs := Set8(s.regs, d.r1, s.data[addr]))
  }

  /** LP: like LD on the code segment, with the address from `GETA2_16`. */
  function ExecLp(s: State, d: Operands): State
  {
    match Arg16(s.code, s.regs, d.hasImm, d.r2)
    case None => Fail(s, OutOfBounds)
    case Some(o) =>
      var addr := o.value;
      if d.is16 then
        if addr == 0xFFFF then Fail(s.(regs := o.regs), OutOfBounds)
        else s.(regs := o.regs[d.r1 := LoadWord(s.code, addr)])
      else
        s.(regs := Set8(o.regs, d.r1, s.code[addr]))
  }

  /** SD: register R1 into the data segment at the `GETA2_16` address. */
  function ExecSd(s: State, d: Operands): State
  {
    match Arg16(s.code, s.regs, d.hasImm, d.r2)
    case None => Fail(s, OutOfBounds)
    case Some(o) =>
      var addr := o.value;
      if d.is16 then
        if addr == 0xFFFF then Fail(s.(regs := o.regs), OutOfBounds)
        else s.(regs := o.regs, data := StoreWord(s.data, addr, o.regs[d.r1]))
      else
        s.(regs := o.regs, data := s.data[addr := Get8(o.regs, d.r1)])
  }

  /** SP: register R1 into the code segment at the `GETA2_16` address. */
  function ExecSp(s: State, d: Operands): State
  {
    match Arg16(s.code, s.regs, d.hasImm, d.r2)
    case None => Fail(s, OutOfBounds)
    case Some(o) =>
      var addr := o.value;
      if d.is16 then
        if addr == 0xFFFF then Fail(s.(regs := o.regs), OutOfBounds)
        else s.(regs := o.regs, code := StoreWord(s.code, addr, o.regs[d.r1]))
      else
        s.(regs := o.regs, code := s.code[addr := Get8(o.regs, d.r1)])
  }

  /** SET: register R1 takes the second operand; no flag changes. */
  function ExecSet(s: State, d: Operands): State
  {
    if d.is16 then
      match Arg16(s.code, s.regs, d.hasImm, d.r2)
      case None => Fail(s, OutOfBounds)
      case Some(o) => s.(regs := o.regs[d.r1 := o.value])
    else
      var o := Arg8(s.code, s.regs, d.hasImm, d.r2);
      s.(regs := Set8(o.regs, d.r1, o.value))
  }

  /**
   * PUSH: the 16-bit form writes the high byte at rsp and the low byte at
   * rsp + 1 and adds 2 to rsp; the 8-bit form writes one byte at rsp and
   * adds 1. rsp wraps as a word.
   */
  function ExecPush(s: State, d: Operands): State
  {
    var sp := s.regs[RSP];
    if d.is16 then
      if sp == 0xFFFF then Fail(s, OutOfBounds)
      else s.(data := StoreBigWord(s.data, sp, s.regs[d.r1]), regs := s.regs[RSP := Wrap16(sp as int + 2)])
    else
      s.(data := s.data[sp := Get8(s.regs, d.r1)], regs := s.regs[RSP := Wrap16(sp as int + 1)])
  }

  /**
   * PULL: the 16-bit form reads the word below rsp and subtracts 2, then
   * writes R1 (so pulling into rsp keeps the pulled word); the 8-bit form
   * reads the byte AT rsp and then subtracts 1.
   */
  function ExecPull(s: State, d: Operands): State
  {
    var sp := s.regs[RSP];
    if d.is16 then
      if sp < 2 then Fail(s, OutOfBounds)
      else s.(regs := s.regs[RSP := sp - 2][d.r1 := BigWord(s.data, sp - 2)])
    else
      s.(regs := Set8(s.regs[RSP := Wrap16(sp as int - 1)], d.r1, s.data[sp]))
  }

  // ---------------------------------------------------------------------
  // Arithmetic and logic

  /** The opcodes that fetch their second operand and then combine it with R1. */
  datatype Binary = AddOp | SubOp | AndOp | OrOp | XorOp

  function Binary16(op: Binary, a: Word, b: Word, f: RFlags): Alu.Out
  {
    match op
    case AddOp => Alu.Add16(a, b, f)
    case SubOp => Alu.Sub16(a, b, f)
    case AndOp => Alu.AndOp(true, a, b, f)
    case OrOp => Alu.OrOp(true, a, b, f)
    case XorOp => Alu.XorOp(true, a, b, f)
  }

  function Binary8(op: Binary, a: Byte, b: Byte, f: RFlags): (r: Alu.Out)
    ensures r.value < 0x100
  {
    match op
    case AddOp => Alu.Add8(a, b, f)
    case SubOp => Alu.Sub8(a, b, f)
    case AndOp => Alu.AndOp(false, a, b, f)
    case OrOp => Alu.OrOp(false, a, b, f)
    case XorOp => Alu.XorOp(false, a, b, f)
  }

  /**
   * ADD, SUB, AND, OR, XOR: the second operand is fetched first (moving
   * rpp if it is an immediate), then R1 is read, the flags are written and
   * finally R1 (so a result into the flags register wins over the flags).
   */
  function ExecBinary(s: State, d: Operands, op: Binary): State
  {
    if d.is16 then
      match Arg16(s.code, s.regs, d.hasImm, d.r2)
      case None => Fail(s, OutOfBounds)
      case Some(o) =>
        var r := Binary16(op, o.regs[d.r1], o.value, Flags(o.regs));
        s.(regs := WithFlags(o.regs, r.flags)[d.r1 := r.value])
    else
      var o := Arg8(s.code, s.regs, d.hasImm, d.r2);
      var r := Binary8(op, Get8(o.regs, d.r1), o.value, Flags(o.regs));
      s.(regs := Set8(WithFlags(o.regs, r.flags), d.r1, r.value))
  }

  /** The opcodes that work on R1 alone. */
  datatype Unary = IncOp | DecOp | NotOp | ShlOp | ShrOp

  function Unary16(op: Unary, a: Word, f: RFlags): Alu.Out
  {
    match op
    case IncOp => Alu.Inc16(a, f)
    case DecOp => Alu.Dec16(a, f)
    case NotOp => Alu.Not16(a, f)
    case ShlOp => Alu.Shl16(a, f)
    case ShrOp => Alu.Shr(a, f)
  }

  function Unary8(op: Unary, a: Byte, f: RFlags): (r: Alu.Out)
    ensures r.value < 0x100
  {
    match op
    case IncOp => Alu.Inc8(a, f)
    case DecOp => Alu.Dec8(a, f)
    case NotOp => Alu.Not8(a, f)
    case ShlOp => Alu.Shl8(a, f)
    case ShrOp => Alu.Shr(a, f)
  }

  /**
   * INC, DEC, NOT, SHL, SHR. The 8-bit NOT reads `*reg8bit[R1]` but writes
   * `*reg16bit[R1]`: the byte result is zero-extended into the whole
   * 16-bit register R1, which for R1 >= 4 is rsp, rpp, flags or rint.
   */
  function ExecUnary(s: State, d: Operands, op: Unary): State
  {
    if d.is16 then
      var r := Unary16(op, s.regs[d.r1], Flags(s.regs));
      s.(regs := WithFlags(s.regs, r.flags)[d.r1 := r.value])
    else
      var r := Unary8(op, Get8(s.regs, d.r1), Flags(s.regs));
      if op == NotOp then s.(regs := WithFlags(s.regs, r.flags)[d.r1 := r.value])
      else s.(regs := Set8(WithFlags(s.regs, r.flags), d.r1, r.value))
  }

  /** CMP: R1 is read before the second operand is fetched; only the flags change. */
  function ExecCmp(s: State, d: Operands): State
  {
    if d.is16 then
      var a := s.regs[d.r1];
      match Arg16(s.code, s.regs, d.hasImm, d.r2)
      case None => Fail(s, OutOfBounds)
      case Some(o) => s.(regs := WithFlags(o.regs, Alu.Cmp16(a, o.value, Flags(o.regs))))
    else
      var a := Get8(s.regs, d.r1);
      var o := Arg8(s.code, s.regs, d.hasImm, d.r2);
      s.(regs := WithFlags(o.regs, Alu.Cmp8(a, o.value, Flags(o.regs))))
  }

  /**
   * MUL: both operands are registers. The flags are written, then the low
   * half goes to R1 and then the high half to R2.
   */
  function ExecMul(s: State, d: Operands): State
  {
    if d.is16 then
      var r := Alu.Mul16(s.regs[d.r1], s.regs[d.r2], Flags(s.regs));
      s.(regs := WithFlags(s.regs, r.flags)[d.r1 := r.first][d.r2 := r.second])
    else
      var r := Alu.Mul8(Get8(s.regs, d.r1), Get8(s.regs, d.r2), Flags(s.regs));
      s.(regs := Set8(Set8(WithFlags(s.regs, r.flags), d.r1, r.first), d.r2, r.second))
  }

  /**
   * DIV: both operands are registers; a zero divisor faults. The flags are
   * written, then the remainder goes to R2 and then the quotient to R1.
   */
  function ExecDiv(s: State, d: Operands): State
  {
    if d.is16 then
      var a, b := s.regs[d.r1], s.regs[d.r2];
      if b == 0 then Fail(s, DivisionByZero)
      else
        var r := Alu.Div16(a, b, Flags(s.regs));
        s.(regs := WithFlags(s.regs, r.flags)[d.r2 := r.second][d.r1 := r.first])
    else
      var a, b := Get8(s.regs, d.r1), Get8(s.regs, d.r2);
      if b == 0 then Fail(s, DivisionByZero)
      else
        var r := Alu.Div8(a, b, Flags(s.regs));
        s.(regs := Set8(Set8(WithFlags(s.regs, r.flags), d.r2, r.second), d.r1, r.first))
  }

  // ---------------------------------------------------------------------
  // Control flow

  /** Whether a jump opcode takes its branch under flags `f` (JMP always does). */
  function Taken(op: Opcode, f: RFlags): bool
  {
    match op
    case Jiz => f.zero
    case Jnz => !f.zero
    case Jin => f.negative
    case Jnn => !f.negative
    case Jic => f.carry
    case Jnc => !f.carry
    case Jio => f.overflow
    case Jno => !f.overflow
    case _ => true
  }

  /**
   * JMP and the conditional jumps: the target is always fetched with
   * `GETA1_16`; rpp becomes the target when the branch is taken.
   */
  function ExecJump(s: State, d: Operands, op: Opcode): State
  {
    match Arg16(s.code, s.regs, d.hasImm, d.r1)
    case None => Fail(s, OutOfBounds)
    case Some(o) =>
      if Taken(op, Flags(o.regs)) then s.(regs := o.regs[RPP := o.value])
      else s.(regs := o.regs)
  }

  /**
   * CALL: fetch the target, push rpp (now just past the operand) as a
   * big-endian word, add 2 to rsp, and jump.
   */
  function ExecCall(s: State, d: Operands): State
  {
    match Arg16(s.code, s.regs, d.hasImm, d.r1)
    case None => Fail(s, OutOfBounds)
    case Some(o) =>
      var sp := o.regs[RSP];
      if sp == 0xFFFF then Fail(s.(regs := o.regs), OutOfBounds)
      else
        s.(data := StoreBigWord(s.data, sp, o.regs[RPP]),
           regs := o.regs[RSP := Wrap16(sp as int + 2)][RPP := o.value])
  }

  /** RETF: pop the big-endian word below rsp into rpp. */
  function ExecRetf(s: State): State
  {
    var sp := s.regs[RSP];
    if sp < 2 then Fail(s, OutOfBounds)
    else s.(regs := s.regs[RSP := sp - 2][RPP := BigWord(s.data, sp - 2)])
  }

  /** The flags after CFL or one of the single-flag clear/set opcodes. */
  function FlagOp(op: Opcode, f: RFlags): RFlags
  {
    match op
    case Cfl => f.(negative := false, zero := false, carry := false, overflow := false)
    case Czf => f.(zero := false)
    case Cnf => f.(negative := false)
    case Ccf => f.(carry := false)
    case Cof => f.(overflow := false)
    case Szf => f.(zero := true)
    case Snf => f.(negative := true)
    case Scf => f.(carry := true)
    case Sof => f.(overflow := true)
    case _ => f
  }

  /** WR: a NUL-terminated string and a newline (16-bit), or one byte (8-bit). */
  function ExecWr(s: State, d: Operands): State
  {
    if d.is16 then
      match Arg16(s.code, s.regs, d.hasImm, d.r1)
      case None => Fail(s, OutOfBounds)
      case Some(o) =>
        match CString(s.data, o.value)
        case None => Fail(s.(regs := o.regs), OutOfBounds)
        case Some(text) => s.(regs := o.regs, out := s.out + text + [0x0A])
    else
      var o := Arg8(s.code, s.regs, d.hasImm, d.r1);
      s.(regs := o.regs, out := s.out + [o.value])
  }

  // ---------------------------------------------------------------------
  // The loop

  /** The single-flag and CFL opcodes: rewrite the flags register through `FlagOp`. */
  function ExecFlag(s: State, op: Opcode): State
  {
    s.(regs := WithFlags(s.regs, FlagOp(op, Flags(s.regs))))
  }

  /** JMP and the eight conditional jumps. */
  predicate IsJump(op: Opcode)
  {
    op.Jmp? || op.Jiz? || op.Jnz? || op.Jin? || op.Jnn? || op.Jic? || op.Jnc? || op.Jio? || op.Jno?
  }

  /** The opcodes that clear or set flags. */
  predicate IsFlagOp(op: Opcode)
  {
    op.Cfl? || op.Czf? || op.Cnf? || op.Ccf? || op.Cof? || op.Szf? || op.Snf? || op.Scf? || op.Sof?
  }

  /** The opcodes that move data: LD, LP, SD, SP, SET, PUSH and PULL. */
  predicate IsTransfer(op: Opcode)
  {
    op.Ld? || op.Lp? || op.Sd? || op.Sp? || op.Set? || op.Push? || op.Pull?
  }

  /** The opcodes with a destination R1 and a source R2 or immediate. */
  predicate IsTwoOperand(op: Opcode)
  {
    op.Add? || op.Sub? || op.And? || op.Or? || op.Xor? || op.Cmp? || op.Mul? || op.Div?
  }

  /** The opcodes that rewrite R1 alone. */
  predicate IsOneOperand(op: Opcode)
  {
    op.Inc? || op.Dec? || op.Not? || op.Shl? || op.Shr?
  }

  /** The switch's cases for the transfer opcodes. */
  function ExecuteTransfer(s: State, op: Opcode, d: Operands): State
    requires IsTransfer(op)
  {
    match op
    case Ld => ExecLd(s, d)
    case Lp => ExecLp(s, d)
    case Sd => ExecSd(s, d)
    case Sp => ExecSp(s, d)
    case Set => ExecSet(s, d)
    case Push => ExecPush(s, d)
    case Pull => ExecPull(s, d)
  }

  /** The switch's cases for the two-operand opcodes. */
  function ExecuteTwoOperand(s: State, op: Opcode, d: Operands): State
    requires IsTwoOperand(op)
  {
    match op
    case Add => ExecBinary(s, d, AddOp)
    case Sub => ExecBinary(s, d, SubOp)
    case And => ExecBinary(s, d, AndOp)
    case Or => ExecBinary(s, d, OrOp)
    case Xor => ExecBinary(s, d, XorOp)
    case Cmp => ExecCmp(s, d)
    case Mul => ExecMul(s, d)
    case Div => ExecDiv(s, d)
  }

  /** The switch's cases for the one-operand opcodes. */
  function ExecuteOneOperand(s: State, op: Opcode, d: Operands): State
    requires IsOneOperand(op)
  {
    match op
    case Inc => ExecUnary(s, d, IncOp)
    case Dec => ExecUnary(s, d, DecOp)
    case Not => ExecUnary(s, d, NotOp)
    case Shl => ExecUnary(s, d, ShlOp)
    case Shr => ExecUnary(s, d, ShrOp)
  }

  /**
   * The switch's remaining cases: jumps, CALL, RETF, STOP, the flag
   * opcodes and WR. INT, HALT and RD have no case of their own and do
   * nothing.
   */
  function ExecuteControl(s: State, op: Opcode, d: Operands): State
    requires !IsTransfer(op) && !IsTwoOperand(op) && !IsOneOperand(op)
  {
    if IsJump(op) then ExecJump(s, d, op)
    else if IsFlagOp(op) then ExecFlag(s, op)
    else match op
      case Nop | Int | Halt | Rd => s
      case Call => ExecCall(s, d)
      case Retf => ExecRetf(s)
      case Stop => s.(status := Stopped)
      case Wr => ExecWr(s, d)
  }

  /** The `switch (op.op)` over every opcode that has a value in `enum OP`, by group. */
  function Execute(s: State, op: Opcode, d: Operands): State
  {
    if IsTransfer(op) then ExecuteTransfer(s, op, d)
    else if IsTwoOperand(op) then ExecuteTwoOperand(s, op, d)
    else if IsOneOperand(op) then ExecuteOneOperand(s, op, d)
    else ExecuteControl(s, op, d)
  }

  /** The fetch's `rpp += 2`: rpp moves past the opcode and specifier bytes. */
  function Advance(s: State): State
  {
    s.(regs := s.regs[RPP := Wrap16(s.regs[RPP] as int + 2)])
  }

  /**
   * One turn of the loop: fetch the opcode byte at rpp and the specifier
   * byte after it, add 2 to rpp, and execute. An opcode byte with no case
   * does nothing further.
   */
  function Step(s: State): State
    requires s.status == Running
  {
    var pc := s.regs[RPP];
    if pc == 0xFFFF then Fail(s, OutOfBounds)
    else
      match Lookup(s.code[pc])
      case None => Advance(s)
      case Some(op) => Execute(Advance(s), op, Decode(s.code[pc + 1] as bv8))
  }

  /** At most `fuel` turns of the loop, stopping early once the machine is no longer running. */
  function Run(s: State, fuel: nat): State
    decreases fuel
  {
    if fuel == 0 || s.status != Running then s else Run(Step(s), fuel - 1)
  }

  /** A run of n > 0 turns from a running state is one turn and then n - 1 more. */
  lemma RunTurn(s: State, n: nat)
    requires s.status == Running && n > 0
    ensures Run(s, n) == Run(Step(s), n - 1)
  {
  }
}
