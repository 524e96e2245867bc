/**
 * What the transfer and call cases of the switch do, and the round trips
 * they make up: a store read back by a load, a push read back by a pull,
 * and a call returned from by RETF. Like `Effects`, every lemma starts
 * from the state after the fetch; between two instructions `Advance` is
 * the second instruction's fetch, so `ExecPull(Advance(ExecPush(n, d1)), d2)`
 * is PUSH followed by PULL (see `Properties.TwoFetches`).
 */
module Transfers {
  import opened Words
  import opened Instruction
  import opened Registers
  import opened Semantics

  /**
   * SET with an immediate: the 16-bit form reads the big-endian word at
   * rpp and moves rpp on by 2; the 8-bit form reads one byte and moves rpp
   * on by 1. Nothing but the registers changes.
   */
  lemma SetImmediateEffect(n: State, d: Operands)
    requires d.hasImm && n.regs[RPP] <= 0xFFFD
    ensures var pc, t := n.regs[RPP], ExecSet(n, d);
      t.status == n.status && t.code == n.code && t.data == n.data && t.out == n.out &&
      (d.is16 ==> t.regs == n.regs[RPP := pc + 2][d.r1 := Join(n.code[pc], n.code[pc + 1])]) &&
      (!d.is16 ==> t.regs == Set8(n.regs[RPP := pc + 1], d.r1, n.code[pc]))
  {
  }

  /**
   * A 16-bit SD through a register address followed by a 16-bit LD
   * through the same register: the loaded register holds the stored
   * word, the data segment holds it little-endian (low byte first), and
   * nothing else but rpp changes.
   */
  lemma StoreThenLoad(n: State, d1: Operands, d2: Operands)
    requires d1.is16 && !d1.hasImm && d2.is16 && d2.r2 == d1.r2 && d1.r2 != RPP
    requires n.regs[d1.r2] != 0xFFFF
    ensures var a, v := n.regs[d1.r2], n.regs[d1.r1];
      var t := ExecLd(Advance(ExecSd(n, d1)), d2);
      t.status == n.status && t.code == n.code && t.out == n.out &&
      t.regs == Advance(n).regs[d2.r1 := v] &&
      t.data == StoreWord(n.data, a, v) && t.data[a] == Lo(v) && t.data[a + 1] == Hi(v)
  {
    var a, v := n.regs[d1.r2], n.regs[d1.r1];
    var m := StoreWord(n.data, a, v);
    SplitJoin(v);
    assert m[a] == Lo(v) && m[a + 1] == Hi(v);
  }

  /**
   * PUSH then PULL in 16-bit form: the pulled register receives the pushed
   * register's value, rsp is back where it was, and the stack holds the
   * word big-endian at the old rsp.
   */
  lemma PushThenPull16(n: State, d1: Operands, d2: Operands)
    requires d1.is16 && d2.is16 && n.regs[RSP] < 0xFFFE
    ensures var sp, v := n.regs[RSP], n.regs[d1.r1];
      var t := ExecPull(Advance(ExecPush(n, d1)), d2);
      t.status == n.status && t.code == n.code && t.out == n.out &&
      t.regs == Advance(n).regs[d2.r1 := v] &&
      t.data == StoreBigWord(n.data, sp, v)
  {
    var sp, v := n.regs[RSP], n.regs[d1.r1];
    var pc2 := Wrap16(n.regs[RPP] as int + 2);
    assert n.regs[RSP := sp + 2][RPP := pc2][RSP := sp] == n.regs[RPP := pc2];
  }

  /**
   * PUSH then PULL in 8-bit form: rsp is back where it was, but the byte
   * pulled is the one just above the pushed byte, since the 8-bit PULL
   * reads at rsp before moving it down.
   */
  lemma PushThenPull8(n: State, d1: Operands, d2: Operands)
    requires !d1.is16 && !d2.is16 && n.regs[RSP] < 0xFFFF
    ensures var sp := n.regs[RSP];
      var t := ExecPull(Advance(ExecPush(n, d1)), d2);
      t.status == n.status && t.code == n.code && t.out == n.out &&
      t.regs == Set8(Advance(n).regs, d2.r1, n.data[sp + 1]) &&
      t.data == n.data[sp := Get8(n.regs, d1.r1)]
  {
    var sp := n.regs[RSP];
    var pc2 := Wrap16(n.regs[RPP] as int + 2);
    assert n.regs[RSP := sp + 1][RPP := pc2][RSP := sp] == n.regs[RPP := pc2];
  }

  /**
   * CALL: after the operand (the big-endian immediate, or register R1)
   * the address that follows is written big-endian at rsp, rsp moves up
   * by 2 and rpp takes the target.
   */
  lemma CallEffect(n: State, d: Operands)
    requires n.regs[RSP] < 0xFFFF && n.regs[RPP] < 0xFFFE
    ensures var pc, sp := n.regs[RPP], n.regs[RSP];
      var ret := if d.hasImm then pc + 2 else pc;
      var target := if d.hasImm then BigWord(n.code, pc) else n.regs[d.r1];
      ExecCall(n, d) == n.(data := StoreBigWord(n.data, sp, ret), regs := n.regs[RSP := Wrap16(sp as int + 2)][RPP := target])
  {
    var pc, sp := n.regs[RPP], n.regs[RSP];
    if d.hasImm {
      assert n.regs[RPP := pc + 2][RSP := Wrap16(sp as int + 2)][RPP := BigWord(n.code, pc)]
        == n.regs[RSP := Wrap16(sp as int + 2)][RPP := BigWord(n.code, pc)];
    }
  }

  /**
   * CALL followed, at its target, by RETF: execution resumes just past
   * CALL's operand with rsp and every other register as before, and the
   * return address is left big-endian on the stack.
   */
  lemma CallThenRetf(n: State, d: Operands)
    requires n.regs[RSP] < 0xFFFE && n.regs[RPP] < 0xFFFE
    ensures var pc, sp := n.regs[RPP], n.regs[RSP];
      var ret := if d.hasImm then pc + 2 else pc;
      var t := ExecRetf(Advance(ExecCall(n, d)));
      t.status == n.status && t.code == n.code && t.out == n.out &&
      t.regs == n.regs[RPP := ret] &&
      t.data == StoreBigWord(n.data, n.regs[RSP], ret)
  {
    var pc, sp := n.regs[RPP], n.regs[RSP];
    var ret := if d.hasImm then pc + 2 else pc;
    var target := if d.hasImm then BigWord(n.code, pc) else n.regs[d.r1];
    CallEffect(n, d);
    var r := n.regs[RSP := sp + 2][RPP := target];
    assert r[RPP := Wrap16(target as int + 2)][RSP := sp][RPP := ret] == n.regs[RPP := ret];
  }
}
