/**
 * The emulator loop in imperative form: the two segments are arrays that
 * instructions overwrite in place, and the register file is a field that
 * each handler reassigns, much as `emu_loop` writes through its
 * `reg16bit` / `reg8bit` pointer tables. Every method is proved to do what
 * the corresponding function of `Semantics` says.
 */
module Emulator {
  import opened Options
  import opened Words
  import opened Instruction
  import opened Registers
  import opened Semantics
  import Alu

  class Cpu {
    /** The code segment. */
    const code: array<Byte>
    /** The data segment, which also holds the stack. */
    const data: array<Byte>
    /** r0, r1, r2, r3, rsp, rpp, flags, rint. */
    var regs: RegFile
    /** Everything WR has written so far. */
    var out: seq<Byte>
    /** Running until STOP (the loop's `exit` flag) or a fault. */
    var status: Status

    ghost predicate Valid()
    {
      code.Length == SPACE && data.Length == SPACE && code != data
    }

    /** The machine state this object represents. */
    ghost function Snapshot(): State
      reads this, code, data
      requires Valid()
    {
      State(code[..], data[..], regs, out, status)
    }

    /** The start of `emu_loop`: the loaded segments, every register zero. */
    constructor (codeImage: Memory, dataImage: Memory)
      ensures Valid() && fresh(code) && fresh(data)
      ensures Snapshot() == Init(codeImage, dataImage)
    {
      code := new Byte[SPACE](i requires 0 <= i < SPACE => codeImage[i]);
      data := new Byte[SPACE](i requires 0 <= i < SPACE => dataImage[i]);
      regs := Cleared;
      out := [];
      status := Running;
      new;
      assert code[..] == codeImage;
      assert data[..] == dataImage;
    }

    // -------------------------------------------------------------------
    // Operand fetch

    /** `GETA?_16`: the big-endian immediate at rpp (moving rpp by 2), or register `r`. */
    method FetchArg16(hasImm: bool, r: RegIndex) returns (v: Option<Word>)
      requires Valid()
      modifies this`regs
      ensures v.None? ==> Arg16(code[..], old(regs), hasImm, r).None? && regs == old(regs)
      ensures v.Some? ==> Arg16(code[..], old(regs), hasImm, r) == Some(Operand(v.value, regs))
    {
      if hasImm {
        var pc := regs[RPP];
        if pc == 0xFFFF {
          return None;
        }
        var upper := code[pc];
        var lower := code[pc + 1];
        regs := regs[RPP := Wrap16(pc as int + 2)];
        v := Some(Join(upper, lower));
      } else {
        v := Some(regs[r]);
      }
    }

    /** `GETA?_8`: the byte at rpp (moving rpp by 1), or `*reg8bit[r]`. */
    method FetchArg8(hasImm: bool, r: RegIndex) returns (v: Byte)
      requires Valid()
      modifies this`regs
      ensures Arg8(code[..], old(regs), hasImm, r) == Operand(v, regs)
    {
      if hasImm {
        var pc := regs[RPP];
        v := code[pc];
        regs := regs[RPP := Wrap16(pc as int + 1)];
      } else {
        v := Get8(regs, r);
      }
    }

    // -------------------------------------------------------------------
    // Transfers

    method Ld(d: Operands)
      requires Valid()
      modifies this`regs, this`status
      ensures Snapshot() == ExecLd(old(Snapshot()), d)
    {
      var addr := regs[d.r2];
      if d.is16 {
        if addr == 0xFFFF {
          status := Faulted(OutOfBounds);
          return;
        }
        regs := regs[d.r1 := Join(data[addr + 1], data[addr])];
      } else {
        var val := data[addr];
        regs := Set8(regs, d.r1, val);
      }
    }

    method Lp(d: Operands)
      requires Valid()
      modifies this`regs, this`status
      ensures Snapshot() == ExecLp(old(Snapshot()), d)
    {
      var arg2 := FetchArg16(d.hasImm, d.r2);
      if arg2.None? {
        status := Faulted(OutOfBounds);
        return;
      }
      var addr := arg2.value;
      if d.is16 {
        if addr == 0xFFFF {
          status := Faulted(OutOfBounds);
          return;
        }
        regs := regs[d.r1 := Join(code[addr + 1], code[addr])];
      } else {
        regs := Set8(regs, d.r1, code[addr]);
      }
    }

    method Sd(d: Operands)
      requires Valid()
      modifies this`regs, this`status, data
      ensures Snapshot() == ExecSd(old(Snapshot()), d)
    {
      var arg2 := FetchArg16(d.hasImm, d.r2);
      if arg2.None? {
        status := Faulted(OutOfBounds);
        return;
      }
      var addr := arg2.value;
      if d.is16 {
        if addr == 0xFFFF {
          status := Faulted(OutOfBounds);
          return;
        }
        var w := regs[d.r1];
        data[addr] := Lo(w);
        data[addr + 1] := Hi(w);
      } else {
        data[addr] := Get8(regs, d.r1);
      }
    }

    method Sp(d: Operands)
      requires Valid()
      modifies this`regs, this`status, code
      ensures Snapshot() == ExecSp(old(Snapshot()), d)
    {
      var arg2 := FetchArg16(d.hasImm, d.r2);
      if arg2.None? {
        status := Faulted(OutOfBounds);
        return;
      }
      var addr := arg2.value;
      if d.is16 {
        if addr == 0xFFFF {
          status := Faulted(OutOfBounds);
          return;
        }
        var w := regs[d.r1];
        code[addr] := Lo(w);
        code[addr + 1] := Hi(w);
      } else {
        code[addr] := Get8(regs, d.r1);
      }
    }

    method SetReg(d: Operands)
      requires Valid()
      modifies this`regs, this`status
      ensures Snapshot() == ExecSet(old(Snapshot()), d)
    {
      if d.is16 {
        var arg2 := FetchArg16(d.hasImm, d.r2);
        if arg2.None? {
          status := Faulted(OutOfBounds);
          return;
        }
        regs := regs[d.r1 := arg2.value];
      } else {
        var arg2 := FetchArg8(d.hasImm, d.r2);
        regs := Set8(regs, d.r1, arg2);
      }
    }

    /** The big-endian stack write shared by 16-bit PUSH and CALL: high byte at rsp, low byte above it. */
    method PushWord(w: Word)
      requires Valid() && regs[RSP] != 0xFFFF
      modifies this`regs, data
      ensures data[..] == StoreBigWord(old(data[..]), old(regs[RSP]), w)
      ensures regs == old(regs)[RSP := Wrap16(old(regs[RSP]) as int + 2)]
    {
      var sp := regs[RSP];
      data[sp] := Hi(w);
      data[sp + 1] := Lo(w);
      regs := regs[RSP := Wrap16(sp as int + 2)];
    }

    method Push(d: Operands)
      requires Valid()
      modifies this`regs, this`status, data
      ensures Snapshot() == ExecPush(old(Snapshot()), d)
    {
      var sp := regs[RSP];
      if d.is16 {
        if sp == 0xFFFF {
          status := Faulted(OutOfBounds);
          return;
        }
        PushWord(regs[d.r1]);
      } else {
        data[sp] := Get8(regs, d.r1);
        regs := regs[RSP := Wrap16(sp as int + 1)];
      }
    }

    method Pull(d: Operands)
      requires Valid()
      modifies this`regs, this`status
      ensures Snapshot() == ExecPull(old(Snapshot()), d)
    {
      var sp := regs[RSP];
      if d.is16 {
        if sp < 2 {
          status := Faulted(OutOfBounds);
          return;
        }
        var lower := data[sp - 1];
        var higher := data[sp - 2];
        regs := regs[RSP := sp - 2];
        regs := regs[d.r1 := Join(higher, lower)];
      } else {
        var val := data[sp];
        regs := regs[RSP := Wrap16(sp as int - 1)];
        regs := Set8(regs, d.r1, val);
      }
    }

    // -------------------------------------------------------------------
    // Arithmetic and logic

    method Binary(d: Operands, op: Semantics.Binary)
      requires Valid()
      modifies this`regs, this`status
      ensures Snapshot() == ExecBinary(old(Snapshot()), d, op)
    {
      ghost var s0 := Snapshot();
      if d.is16 {
        var arg2 := FetchArg16(d.hasImm, d.r2);
        if arg2.None? {
          status := Faulted(OutOfBounds);
          return;
        }
        ghost var o := Operand(arg2.value, regs);
        assert Arg16(s0.code, s0.regs, d.hasImm, d.r2) == Some(o);
        var arg1 := regs[d.r1];
        var r := Binary16(op, arg1, arg2.value, Flags(regs));
        regs := WithFlags(regs, r.flags);
        regs := regs[d.r1 := r.value];
        assert Snapshot() == s0.(regs := regs);
      } else {
        var arg2 := FetchArg8(d.hasImm, d.r2);
        var arg1 := Get8(regs, d.r1);
        var r := Binary8(op, arg1, arg2, Flags(regs));
        regs := WithFlags(regs, r.flags);
        regs := Set8(regs, d.r1, r.value);
        assert Snapshot() == s0.(regs := regs);
      }
    }

    method Unary(d: Operands, op: Semantics.Unary)
      requires Valid()
      modifies this`regs
      ensures Snapshot() == ExecUnary(old(Snapshot()), d, op)
    {
      if d.is16 {
        var r := Unary16(op, regs[d.r1], Flags(regs));
        regs := WithFlags(regs, r.flags);
        regs := regs[d.r1 := r.value];
      } else {
        var r := Unary8(op, Get8(regs, d.r1), Flags(regs));
        regs := WithFlags(regs, r.flags);
        if op == NotOp {
          regs := regs[d.r1 := r.value];
        } else {
          regs := Set8(regs, d.r1, r.value);
        }
      }
    }

    method Compare(d: Operands)
      requires Valid()
      modifies this`regs, this`status
      ensures Snapshot() == ExecCmp(old(Snapshot()), d)
    {
      if d.is16 {
        var arg1 := regs[d.r1];
        var arg2 := FetchArg16(d.hasImm, d.r2);
        if arg2.None? {
          status := Faulted(OutOfBounds);
          return;
        }
        regs := WithFlags(regs, Alu.Cmp16(arg1, arg2.value, Flags(regs)));
      } else {
        var arg1 := Get8(regs, d.r1);
        var arg2 := FetchArg8(d.hasImm, d.r2);
        regs := WithFlags(regs, Alu.Cmp8(arg1, arg2, Flags(regs)));
      }
    }

    method Multiply(d: Operands)
      requires Valid()
      modifies this`regs
      ensures Snapshot() == ExecMul(old(Snapshot()), d)
    {
      if d.is16 {
        var r := Alu.Mul16(regs[d.r1], regs[d.r2], Flags(regs));
        regs := WithFlags(regs, r.flags);
        regs := regs[d.r1 := r.first];
        regs := regs[d.r2 := r.second];
      } else {
        var r := Alu.Mul8(Get8(regs, d.r1), Get8(regs, d.r2), Flags(regs));
        regs := WithFlags(regs, r.flags);
        regs := Set8(regs, d.r1, r.first);
        regs := Set8(regs, d.r2, r.second);
      }
    }

    method Divide(d: Operands)
      requires Valid()
      modifies this`regs, this`status
      ensures Snapshot() == ExecDiv(old(Snapshot()), d)
    {
      if d.is16 {
        var arg1, arg2 := regs[d.r1], regs[d.r2];
        if arg2 == 0 {
          status := Faulted(DivisionByZero);
          return;
        }
        var r := Alu.Div16(arg1, arg2, Flags(regs));
        regs := WithFlags(regs, r.flags);
        regs := regs[d.r2 := r.second];
        regs := regs[d.r1 := r.first];
      } else {
        var arg1, arg2 := Get8(regs, d.r1), Get8(regs, d.r2);
        if arg2 == 0 {
          status := Faulted(DivisionByZero);
          return;
        }
        var r := Alu.Div8(arg1, arg2, Flags(regs));
        regs := WithFlags(regs, r.flags);
        regs := Set8(regs, d.r2, r.second);
        regs := Set8(regs, d.r1, r.first);
      }
    }

    // -------------------------------------------------------------------
    // Control flow, flags and output

    method Jump(d: Operands, op: Opcode)
      requires Valid()
      modifies this`regs, this`status
      ensures Snapshot() == ExecJump(old(Snapshot()), d, op)
    {
      var addr := FetchArg16(d.hasImm, d.r1);
      if addr.None? {
        status := Faulted(OutOfBounds);
        return;
      }
      var taken := Taken(op, Flags(regs));
      if taken {
        regs := regs[RPP := addr.value];
      }
    }

    method Call(d: Operands)
      requires Valid()
      modifies this`regs, this`status, data
      ensures Snapshot() == ExecCall(old(Snapshot()), d)
    {
      var target := FetchArg16(d.hasImm, d.r1);
      if target.None? {
        status := Faulted(OutOfBounds);
        return;
      }
      var sp := regs[RSP];
      if sp == 0xFFFF {
        status := Faulted(OutOfBounds);
        return;
      }
      PushWord(regs[RPP]);
      regs := regs[RPP := target.value];
    }

    method Return()
      requires Valid()
      modifies this`regs, this`status
      ensures Snapshot() == ExecRetf(old(Snapshot()))
    {
      var sp := regs[RSP];
      if sp < 2 {
        status := Faulted(OutOfBounds);
        return;
      }
      var lower := data[sp - 1];
      var higher := data[sp - 2];
      regs := regs[RSP := sp - 2];
      regs := regs[RPP := Join(higher, lower)];
    }

    /** CFL and the single-flag opcodes: rewrite the flags register. */
    method Flag(op: Opcode)
      requires Valid()
      modifies this`regs
      ensures Snapshot() == ExecFlag(old(Snapshot()), op)
    {
      regs := WithFlags(regs, FlagOp(op, Flags(regs)));
    }

    method Write(d: Operands)
      requires Valid()
      modifies this`regs, this`status, this`out
      ensures Snapshot() == ExecWr(old(Snapshot()), d)
    {
      if d.is16 {
        var addr := FetchArg16(d.hasImm, d.r1);
        if addr.None? {
          status := Faulted(OutOfBounds);
          return;
        }
        var text := CString(data[..], addr.value);
        if text.None? {
          status := Faulted(OutOfBounds);
          return;
        }
        out := out + text.value + [0x0A];
      } else {
        var b := FetchArg8(d.hasImm, d.r1);
        out := out + [b];
      }
    }

    /** The `switch (op.op)` for an opcode that has a value in `enum OP`. */
    method Execute(op: Opcode, d: Operands)
      requires Valid()
      modifies this`regs, this`status, this`out, code, data
      ensures Snapshot() == Semantics.Execute(old(Snapshot()), op, d)
    {
      if IsTransfer(op) {
        ExecuteTransfer(op, d);
      } else if IsTwoOperand(op) {
        ExecuteTwoOperand(op, d);
      } else if IsOneOperand(op) {
        ExecuteOneOperand(op, d);
      } else {
        ExecuteControl(op, d);
      }
    }

    /** The cases of the switch that move data between registers, memory and the stack. */
    method ExecuteTransfer(op: Opcode, d: Operands)
      requires Valid() && IsTransfer(op)
      modifies this`regs, this`status, code, data
      ensures Snapshot() == Semantics.ExecuteTransfer(old(Snapshot()), op, d)
    {
      match op
      case Ld => Ld(d);
      case Lp => Lp(d);
      case Sd => Sd(d);
      case Sp => Sp(d);
      case Set => SetReg(d);
      case Push => Push(d);
      case Pull => Pull(d);
    }

    /** The cases of the switch for the two-operand arithmetic and logic opcodes. */
    method ExecuteTwoOperand(op: Opcode, d: Operands)
      requires Valid() && IsTwoOperand(op)
      modifies this`regs, this`status
      ensures Snapshot() == Semantics.ExecuteTwoOperand(old(Snapshot()), op, d)
    {
      match op
      case Add => Binary(d, AddOp);
      case Sub => Binary(d, SubOp);
      case And => Binary(d, AndOp);
      case Or => Binary(d, OrOp);
      case Xor => Binary(d, XorOp);
      case Cmp => Compare(d);
      case Mul => Multiply(d);
      case Div => Divide(d);
    }

    /** The cases of the switch for the one-operand opcodes. */
    method ExecuteOneOperand(op: Opcode, d: Operands)
      requires Valid() && IsOneOperand(op)
      modifies this`regs
      ensures Snapshot() == Semantics.ExecuteOneOperand(old(Snapshot()), op, d)
    {
      match op
      case Inc => Unary(d, IncOp);
      case Dec => Unary(d, DecOp);
      case Not => Unary(d, NotOp);
      case Shl => Unary(d, ShlOp);
      case Shr => Unary(d, ShrOp);
    }

    /** The remaining cases: jumps, CALL/RETF, STOP, the flag opcodes, WR and the no-ops. */
    method ExecuteControl(op: Opcode, d: Operands)
      requires Valid() && !IsTransfer(op) && !IsTwoOperand(op) && !IsOneOperand(op)
      modifies this`regs, this`status, this`out, data
      ensures Snapshot() == Semantics.ExecuteControl(old(Snapshot()), op, d)
    {
      if IsJump(op) {
        Jump(d, op);
      } else if IsFlagOp(op) {
        Flag(op);
      } else {
        match op
        case Nop | Int | Halt | Rd =>
        case Call => Call(d);
        case Retf => Return();
        case Stop => status := Stopped;
        case Wr => Write(d);
      }
    }

    /** One turn of the loop: fetch, add 2 to rpp, decode, dispatch. */
    method Step()
      requires Valid() && status == Running
      modifies this`regs, this`status, this`out, code, data
      ensures Snapshot() == Semantics.Step(old(Snapshot()))
    {
      var pc := regs[RPP];
      if pc == 0xFFFF {
        status := Faulted(OutOfBounds);
        return;
      }
      var opcode := code[pc];
      var spec := code[pc + 1];
      regs := regs[RPP := Wrap16(pc as int + 2)];
      match Lookup(opcode) {
        case None =>
        case Some(op) => Execute(op, Decode(spec as bv8));
      }
    }

    /** `while (!exit)`, cut off after `fuel` turns. */
    method Run(fuel: nat)
      requires Valid()
      modifies this`regs, this`status, this`out, code, data
      ensures Snapshot() == Semantics.Run(old(Snapshot()), fuel)
    {
      var n := fuel;
      while n > 0 && status == Running
        invariant Semantics.Run(Snapshot(), n) == Semantics.Run(old(Snapshot()), fuel)
        decreases n
      {
        ghost var before := Snapshot();
        Step();
        Semantics.RunTurn(before, n);
        n := n - 1;
      }
    }
  }
}
