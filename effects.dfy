/**
 * What the individual `case`s of the switch do, stated over the handler
 * functions of `Semantics` from any state (that is, after the fetch has
 * already moved rpp past the instruction's first two bytes).
 */
module Effects {
  import opened Words
  import opened Instruction
  import opened Registers
  import opened Semantics
  import Alu

  /**
   * ADD in 16-bit register form: R1 gets the sum modulo 2^16, carry says
   * whether it wrapped, zero is set only when both operands are zero (the
   * test is made on the unwrapped sum), and the other flags, the other
   * registers and the memories keep their values.
   */
  lemma AddEffect(n: State, d: Operands)
    requires d.is16 && !d.hasImm && d.r1 != FLAGS
    ensures var a: int, b: int, f := n.regs[d.r1], n.regs[d.r2], Flags(n.regs);
      var t := ExecBinary(n, d, AddOp);
      t.status == n.status && t.data == n.data && t.code == n.code && t.out == n.out &&
      t.regs[d.r1] == (a + b) % 0x1_0000 &&
      (Flags(t.regs).carry <==> a + b > 0xFFFF) &&
      (Flags(t.regs).zero <==> a == 0 && b == 0) &&
      Flags(t.regs) == f.(carry := a + b > 0xFFFF, zero := a == 0 && b == 0) &&
      forall k: RegIndex :: k != d.r1 && k != FLAGS ==> t.regs[k] == n.regs[k]
  {
    var a: int, b: int := n.regs[d.r1], n.regs[d.r2];
    var r := Alu.Add16(a, b, Flags(n.regs));
    DivMod(a + b, 0x1_0000, Bit(r.flags.carry), r.value);
  }

  /**
   * ADD r0, r1 (specifier 0x82) with r0 = 0xFFFF and r1 = 1: r0 wraps to
   * zero and carry is set, but zero stays clear because the unwrapped sum
   * 0x10000 is not zero.
   */
  lemma AddWrapsWithoutZero(n: State)
    requires n.regs[0] == 0xFFFF && n.regs[1] == 1
    ensures Decode(0x82) == Operands(true, false, 0, 1)
    ensures var t := ExecBinary(n, Decode(0x82), AddOp);
      t.regs[0] == 0 && Flags(t.regs).carry && !Flags(t.regs).zero
  {
    var d := Operands(true, false, 0, 1);
    assert Encode(d) == 0x82;
    DecodeEncode(d);
    AddEffect(n, d);
  }

  /**
   * CMP changes only the flags, and the flags it leaves are those SUB with
   * the same specifier leaves, as long as SUB's result does not land on
   * the flags register or rpp. The operand fetch moves rpp the same way.
   */
  lemma CmpEffect(n: State, d: Operands)
    requires d.is16 ==> d.r1 != FLAGS && d.r1 != RPP
    ensures var t, u := ExecCmp(n, d), ExecBinary(n, d, SubOp);
      t.status == u.status && t.regs[RPP] == u.regs[RPP] && Flags(t.regs) == Flags(u.regs) &&
      t.data == n.data && t.code == n.code && t.out == n.out &&
      forall k: RegIndex :: k != FLAGS && k != RPP ==> t.regs[k] == n.regs[k]
  {
    if d.is16 {
      match Arg16(n.code, n.regs, d.hasImm, d.r2)
      case None =>
      case Some(o) =>
        Alu.CmpIsSubFlags(n.regs[d.r1], o.value, 0, 0, Flags(o.regs));
    } else {
      var o := Arg8(n.code, n.regs, d.hasImm, d.r2);
      assert Get8(o.regs, d.r1) == Get8(n.regs, d.r1);
      Alu.CmpIsSubFlags(0, 0, Get8(n.regs, d.r1), o.value, Flags(o.regs));
    }
  }

  /**
   * MUL in 16-bit form on two distinct registers: R1 gets the low half and
   * R2 the high half of the full product; overflow says whether the high
   * half is non-zero; carry is cleared.
   */
  lemma MulEffect(n: State, d: Operands)
    requires d.is16 && d.r1 != d.r2 && d.r1 != FLAGS && d.r2 != FLAGS
    ensures var a: int, b: int := n.regs[d.r1], n.regs[d.r2]; var t := ExecMul(n, d);
      t.status == n.status &&
      t.regs[d.r1] as int + 0x1_0000 * (t.regs[d.r2] as int) == a * b &&
      (Flags(t.regs).overflow <==> a * b > 0xFFFF) &&
      !Flags(t.regs).carry && (Flags(t.regs).zero <==> a == 0 || b == 0) &&
      forall k: RegIndex :: k != d.r1 && k != d.r2 && k != FLAGS ==> t.regs[k] == n.regs[k]
  {
  }

  /** MUL with R1 = R2 keeps the high half of the square: the high half is written last. */
  lemma MulSameRegisterEffect(n: State, d: Operands)
    requires d.is16 && d.r1 == d.r2 && d.r1 != FLAGS
    ensures var a: int := n.regs[d.r1]; ExecMul(n, d).regs[d.r1] == a * a / 0x1_0000
  {
    var a: int := n.regs[d.r1];
    var r := Alu.Mul16(a, a, Flags(n.regs));
    assert ExecMul(n, d).regs[d.r1] == r.second;
    var p := a * a;
    assert p == r.first + 0x1_0000 * r.second;
    DivMod(p, 0x1_0000, r.second, r.first);
  }

  /**
   * DIV in 16-bit form on two distinct registers with a non-zero divisor:
   * R1 gets the quotient and R2 the remainder; zero says the quotient is
   * zero and carry that the remainder is not.
   */
  lemma DivEffect(n: State, d: Operands)
    requires d.is16 && d.r1 != d.r2 && d.r1 != FLAGS && d.r2 != FLAGS && n.regs[d.r2] != 0
    ensures var a: int, b: int := n.regs[d.r1], n.regs[d.r2]; var t := ExecDiv(n, d);
      t.status == n.status &&
      t.regs[d.r1] == a / b && t.regs[d.r2] == a % b &&
      (Flags(t.regs).zero <==> a < b) && (Flags(t.regs).carry <==> a % b != 0) &&
      forall k: RegIndex :: k != d.r1 && k != d.r2 && k != FLAGS ==> t.regs[k] == n.regs[k]
  {
    var a, b := n.regs[d.r1], n.regs[d.r2];
    var r := Alu.Div16(a, b, Flags(n.regs));
    DivMod(a, b, r.first, r.second);
  }

  /** DIV with R1 = R2 and a non-zero value keeps the quotient 1: the quotient is written last. */
  lemma DivSameRegisterEffect(n: State, d: Operands)
    requires d.is16 && d.r1 == d.r2 && d.r1 != FLAGS && n.regs[d.r1] != 0
    ensures ExecDiv(n, d).regs[d.r1] == 1
  {
    var a := n.regs[d.r1];
    var r := Alu.Div16(a, a, Flags(n.regs));
    DivMod(a, a, r.first, r.second);
    DivMod(a, a, 1, 0);
  }

  /** DIV with a zero divisor faults and changes nothing else, in both widths. */
  lemma DivByZeroEffect(n: State, d: Operands)
    requires if d.is16 then n.regs[d.r2] == 0 else Get8(n.regs, d.r2) == 0
    ensures ExecDiv(n, d) == n.(status := Faulted(DivisionByZero))
  {
  }

  /**
   * 8-bit NOT reads the byte `*reg8bit[R1]` but stores its complement
   * through `*reg16bit[R1]`: the whole 16-bit register R1 becomes the
   * zero-extended byte 0xFF - b. For R1 = 0..3 that also clears the high
   * byte of r0..r3; for R1 = 4..7 it is rsp, rpp, the flags word or rint
   * that is replaced, not the high byte of r0..r3 that was read. The zero
   * flag is set first, so with R1 = 6 the store overwrites it.
   */
  lemma Not8Effect(n: State, d: Operands)
    requires !d.is16
    ensures var b := Get8(n.regs, d.r1); var t := ExecUnary(n, d, NotOp);
      t.status == n.status && t.code == n.code && t.data == n.data && t.out == n.out &&
      t.regs[d.r1] == 0xFF - b &&
      (d.r1 != FLAGS ==> Flags(t.regs) == Flags(n.regs).(zero := b == 0xFF)) &&
      forall k: RegIndex :: k != d.r1 && k != FLAGS ==> t.regs[k] == n.regs[k]
  {
  }

  /** 8-bit NOT r6 replaces the flags word with the complement of r2's high byte. */
  lemma Not8IntoFlags(n: State)
    ensures ExecUnary(n, Operands(false, false, FLAGS, 0), NotOp).regs[FLAGS] == 0xFF - Hi(n.regs[2])
  {
    Not8Effect(n, Operands(false, false, FLAGS, 0));
  }

  /** The opcodes whose turn does nothing beyond the fetch. */
  predicate IsNoOp(op: Opcode)
  {
    op.Nop? || op.Int? || op.Halt? || op.Rd?
  }

  /** NOP, INT, HALT and RD leave the state as the fetch left it. */
  lemma NoOpCase(n: State, op: Opcode, d: Operands)
    requires IsNoOp(op)
    ensures Execute(n, op, d) == n
  {
  }

  /** The conditional jumps in their four complementary pairs; JMP always jumps. */
  lemma JumpConditions(f: RFlags)
    ensures Taken(Jmp, f)
    ensures Taken(Jiz, f) == f.zero && Taken(Jnz, f) == !f.zero
    ensures Taken(Jin, f) == f.negative && Taken(Jnn, f) == !f.negative
    ensures Taken(Jic, f) == f.carry && Taken(Jnc, f) == !f.carry
    ensures Taken(Jio, f) == f.overflow && Taken(Jno, f) == !f.overflow
  {
  }

  /** The nine jump opcodes share one handler. */
  lemma JumpCase(n: State, op: Opcode, d: Operands)
    requires IsJump(op)
    ensures Execute(n, op, d) == ExecJump(n, d, op)
  {
    assert !IsTransfer(op) && !IsTwoOperand(op) && !IsOneOperand(op);
  }

  /**
   * A jump with rpp at most 0xFFFD consumes its operand, then sets rpp to
   * the target exactly when its condition holds on the flags.
   */
  lemma JumpEffect(n: State, d: Operands, op: Opcode)
    requires n.regs[RPP] <= 0xFFFD
    ensures var pc := n.regs[RPP];
      var next := if d.hasImm then pc + 2 else pc;
      var target := if d.hasImm then BigWord(n.code, pc) else n.regs[d.r1];
      ExecJump(n, d, op) == n.(regs := n.regs[RPP := if Taken(op, Flags(n.regs)) then target else next])
  {
    var pc := n.regs[RPP];
    var taken := Taken(op, Flags(n.regs));
    if d.hasImm {
      var o := Imm16(n.code, n.regs).value;
      assert o.regs == n.regs[RPP := pc + 2];
      assert Flags(o.regs) == Flags(n.regs);
      if taken {
        assert o.regs[RPP := o.value] == n.regs[RPP := BigWord(n.code, pc)];
      }
    }
  }

  /** The nine flag opcodes share one handler. */
  lemma FlagCase(n: State, op: Opcode, d: Operands)
    requires IsFlagOp(op)
    ensures Execute(n, op, d) == ExecFlag(n, op)
  {
    assert !IsTransfer(op) && !IsTwoOperand(op) && !IsOneOperand(op);
    assert Execute(n, op, d) == ExecuteControl(n, op, d);
  }

  /**
   * The flag opcodes change exactly their named flags and leave
   * int_enable and the unused bits alone.
   */
  lemma FlagOpEffect(op: Opcode, f: RFlags)
    requires IsFlagOp(op)
    ensures var g := FlagOp(op, f);
      g.intEnable == f.intEnable && g.unused == f.unused &&
      g.zero == (if op.Cfl? || op.Czf? then false else if op.Szf? then true else f.zero) &&
      g.negative == (if op.Cfl? || op.Cnf? then false else if op.Snf? then true else f.negative) &&
      g.carry == (if op.Cfl? || op.Ccf? then false else if op.Scf? then true else f.carry) &&
      g.overflow == (if op.Cfl? || op.Cof? then false else if op.Sof? then true else f.overflow)
  {
    if op.Cfl? {
    } else if op.Czf? || op.Cnf? || op.Ccf? || op.Cof? {
    } else {
    }
  }

  /** So a flag opcode leaves bits 4 to 15 of the flags word as they were. */
  lemma FlagOpKeepsHighBits(op: Opcode, f: RFlags)
    requires IsFlagOp(op)
    ensures Pack(FlagOp(op, f)) / 16 == Pack(f) / 16
  {
    FlagOpEffect(op, f);
    PackHighEqual(f, FlagOp(op, f));
  }

  /** A transfer never writes the output, and only SP writes the code segment. */
  lemma TransferFrame(n: State, op: Opcode, d: Operands)
    requires IsTransfer(op)
    ensures ExecuteTransfer(n, op, d).out == n.out
    ensures ExecuteTransfer(n, op, d).code != n.code ==> op == Sp
  {
  }

  /** The two-operand opcodes write neither the output nor the code segment. */
  lemma TwoOperandFrame(n: State, op: Opcode, d: Operands)
    requires IsTwoOperand(op)
    ensures ExecuteTwoOperand(n, op, d).out == n.out
    ensures ExecuteTwoOperand(n, op, d).code == n.code
  {
  }

  /** The one-operand opcodes write neither the output nor the code segment. */
  lemma OneOperandFrame(n: State, op: Opcode, d: Operands)
    requires IsOneOperand(op)
    ensures ExecuteOneOperand(n, op, d).out == n.out
    ensures ExecuteOneOperand(n, op, d).code == n.code
  {
  }

  /** Of the remaining opcodes only WR writes the output, and none writes the code segment. */
  lemma ControlFrame(n: State, op: Opcode, d: Operands)
    requires !IsTransfer(op) && !IsTwoOperand(op) && !IsOneOperand(op)
    ensures n.out <= ExecuteControl(n, op, d).out
    ensures ExecuteControl(n, op, d).code == n.code
  {
    if op == Wr {
      WrFrame(n, d);
    } else {
      assert ExecuteControl(n, op, d).out == n.out;
    }
  }

  /** WR appends its text, or its byte, to the output. */
  lemma WrFrame(n: State, d: Operands)
    ensures n.out <= ExecWr(n, d).out
    ensures ExecWr(n, d).code == n.code
  {
    var t := ExecWr(n, d);
    if t.out != n.out {
      assert t.out[..|n.out|] == n.out;
    }
  }

  /** A turn of the loop's switch only appends to the output, and only SP can change the code segment. */
  lemma ExecuteFrame(n: State, op: Opcode, d: Operands)
    ensures n.out <= Execute(n, op, d).out
    ensures Execute(n, op, d).code != n.code ==> op == Sp
  {
    if IsTransfer(op) {
      TransferFrame(n, op, d);
    } else if IsTwoOperand(op) {
      TwoOperandFrame(n, op, d);
    } else if IsOneOperand(op) {
      OneOperandFrame(n, op, d);
    } else {
      ControlFrame(n, op, d);
    }
  }
}
