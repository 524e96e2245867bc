/**
 * What one or a few turns of the loop do to the whole machine, stated over
 * `Semantics.Step` and `Semantics.Run`: the fetch and its advance of rpp,
 * the composition of two turns, the output and code-segment frame, and a
 * few programs run end to end.
 */
module Properties {
  import opened Words
  import opened Instruction
  import opened Registers
  import opened Semantics
  import opened Effects
  import opened Transfers
  import opened Options

  /** The instruction at `pc` is opcode `op` with the specifier byte encoding `d`. */
  predicate Fetches(code: Memory, pc: Word, op: Opcode, d: Operands)
  {
    pc < 0xFFFF && code[pc] == Code(op) && code[pc + 1] as bv8 == Encode(d)
  }

  /**
   * The fetch: the opcode is the byte at rpp (the lower address of the
   * instruction word) and the specifier the byte after it; rpp moves on
   * by 2 and the opcode's case runs.
   */
  lemma StepFetches(s: State, op: Opcode, d: Operands)
    requires s.status == Running && Fetches(s.code, s.regs[RPP], op, d)
    ensures Step(s) == Execute(Advance(s), op, d)
  {
    LookupCode(op);
    DecodeEncode(d);
  }

  /** A byte that is no opcode is skipped with its specifier; rpp at 0xFFFF cannot fetch. */
  lemma UnknownOpcode(s: State)
    requires s.status == Running
    ensures s.regs[RPP] == 0xFFFF ==> Step(s) == s.(status := Faulted(OutOfBounds))
    ensures s.regs[RPP] < 0xFFFF && (forall op :: s.code[s.regs[RPP]] != Code(op)) ==> Step(s) == Advance(s)
  {
    if s.regs[RPP] < 0xFFFF && Lookup(s.code[s.regs[RPP]]).Some? {
      var op := Lookup(s.code[s.regs[RPP]]).value;
      assert s.code[s.regs[RPP]] == Code(op);
    }
  }

  /**
   * Two turns whose instructions are known: each is its fetch followed by
   * its case, the second fetched from wherever the first left rpp.
   */
  lemma TwoFetches(s: State, op1: Opcode, d1: Operands, op2: Opcode, d2: Operands)
    requires s.status == Running && Fetches(s.code, s.regs[RPP], op1, d1)
    requires var t := Execute(Advance(s), op1, d1);
      t.status == Running && Fetches(t.code, t.regs[RPP], op2, d2)
    ensures Run(s, 2) == Execute(Advance(Execute(Advance(s), op1, d1)), op2, d2)
  {
    var t := Execute(Advance(s), op1, d1);
    StepFetches(s, op1, d1);
    StepFetches(t, op2, d2);
    RunTurn(s, 2);
    RunTurn(t, 1);
  }

  // ---------------------------------------------------------------------
  // Whole-machine invariants

  /** A turn only appends to the output, and only SP can change the code segment. */
  lemma StepFrame(s: State)
    requires s.status == Running
    ensures s.out <= Step(s).out
    ensures Step(s).code != s.code ==> s.regs[RPP] < 0xFFFF && s.code[s.regs[RPP]] == Code(Sp)
  {
    var pc := s.regs[RPP];
    if pc < 0xFFFF {
      match Lookup(s.code[pc])
      case None =>
      case Some(op) =>
        ExecuteFrame(Advance(s), op, Decode(s.code[pc + 1] as bv8));
    }
  }

  /** Any number of turns only appends to the output. */
  lemma {:induction false} RunOutputGrows(s: State, n: nat)
    ensures s.out <= Run(s, n).out
    decreases n
  {
    if n > 0 && s.status == Running {
      StepFrame(s);
      RunTurn(s, n);
      RunOutputGrows(Step(s), n - 1);
    }
  }

  // ---------------------------------------------------------------------
  // Programs

  /** A segment whose first bytes are `prefix` and whose remaining bytes are zero. */
  function Image(prefix: seq<Byte>): (m: Memory)
    requires |prefix| <= SPACE
    ensures forall i :: 0 <= i < |prefix| ==> m[i] == prefix[i]
    ensures forall i :: |prefix| <= i < SPACE ==> m[i] == 0
  {
    prefix + seq(SPACE - |prefix|, _ => 0)
  }

  /** One turn at SET in 16-bit register form: R1 takes R2 (read after the fetch). */
  lemma SetRegisterStep(s: State, d: Operands)
    requires s.status == Running && Fetches(s.code, s.regs[RPP], Set, d) && d.is16 && !d.hasImm
    ensures var n := Advance(s); Step(s) == n.(regs := n.regs[d.r1 := n.regs[d.r2]])
  {
    assert Step(s) == ExecSet(Advance(s), d) by { StepFetches(s, Set, d); }
  }

  /** One turn at NOP, INT, HALT or RD: only the fetch's advance of rpp. */
  lemma NoOpStep(s: State, op: Opcode, d: Operands)
    requires s.status == Running && IsNoOp(op) && Fetches(s.code, s.regs[RPP], op, d)
    ensures Step(s) == Advance(s)
  {
    assert Step(s) == Execute(Advance(s), op, d) by { StepFetches(s, op, d); }
    NoOpCase(Advance(s), op, d);
  }

  /** One turn at STOP: the loop ends after rpp has moved past the instruction. */
  lemma StopStep(s: State, d: Operands)
    requires s.status == Running && Fetches(s.code, s.regs[RPP], Stop, d)
    ensures Step(s) == Advance(s).(status := Stopped)
  {
    assert Step(s) == Execute(Advance(s), Stop, d) by { StepFetches(s, Stop, d); }
  }

  /** A NOP byte at rpp is skipped with whatever specifier byte follows it. */
  lemma NopAt(s: State)
    requires s.status == Running && s.regs[RPP] <= 0xFFFD && s.code[s.regs[RPP]] == 0x00
    ensures Step(s) == s.(regs := s.regs[RPP := s.regs[RPP] + 2])
  {
    var pc := s.regs[RPP];
    EncodeDecode(s.code[pc + 1] as bv8);
    NoOpStep(s, Nop, Decode(s.code[pc + 1] as bv8));
  }

  /** A STOP byte at rpp ends the run with rpp past the instruction, whatever specifier follows. */
  lemma StopAt(s: State)
    requires s.status == Running && s.regs[RPP] <= 0xFFFD && s.code[s.regs[RPP]] == 0x34
    ensures Step(s) == s.(regs := s.regs[RPP := s.regs[RPP] + 2], status := Stopped)
  {
    var pc := s.regs[RPP];
    EncodeDecode(s.code[pc + 1] as bv8);
    StopStep(s, Decode(s.code[pc + 1] as bv8));
  }

  /** The case of SET r0, #0x002A once the fetch has moved rpp from 0 to 2. */
  lemma SetR0ImmediateCase(s: State)
    requires s.regs[RPP] == 0 && s.code[2] == 0x00 && s.code[3] == 0x2A
    ensures ExecSet(Advance(s), Operands(true, true, 0, 0)) == s.(regs := s.regs[RPP := 4][0 := 0x2A])
  {
    var n := Advance(s);
    var r2 := s.regs[RPP := 2];
    assert Wrap16(0 + 2) == 2;
    assert n.regs == r2;
    assert Wrap16(2 + 2) == 4;
    var r4 := r2[RPP := 4];
    assert r4 == s.regs[RPP := 4];
    assert Imm16(n.code, n.regs) == Some(Operand(0x2A, r4)) by {
      assert BigWord(n.code, 2) == Join(0x00, 0x2A) == 0x2A;
    }
  }

  /** SET r0, #0x002A at address 0. */
  lemma SetR0Immediate(s: State)
    requires s.status == Running && s.regs[RPP] == 0
    requires s.code[0] == 0x05 && s.code[1] == 0x81 && s.code[2] == 0x00 && s.code[3] == 0x2A
    ensures Step(s) == s.(regs := s.regs[RPP := 4][0 := 0x2A])
  {
    var d := Operands(true, true, 0, 0);
    assert Encode(d) == 0x81;
    assert Step(s) == ExecSet(Advance(s), d) by { StepFetches(s, Set, d); }
    SetR0ImmediateCase(s);
  }

  /** SET r0, r0 at address 0: specifier 0x80 has bit 0 clear, so no immediate follows. */
  lemma SetR0Register(s: State)
    requires s.status == Running && s.regs[RPP] == 0 && s.code[0] == 0x05 && s.code[1] == 0x80
    ensures Step(s) == s.(regs := s.regs[RPP := 2])
  {
    var d := Operands(true, false, 0, 0);
    assert Encode(d) == 0x80;
    SetRegisterStep(s, d);
    assert s.regs[RPP := 2][0 := s.regs[RPP := 2][0]] == s.regs[RPP := 2];
  }

  /** NOP followed by STOP: two turns that move rpp by 4 and end the run. */
  lemma NopThenStop(s: State)
    requires s.status == Running && s.regs[RPP] <= 0xFFFB
    requires s.code[s.regs[RPP]] == 0x00 && s.code[s.regs[RPP] + 2] == 0x34
    ensures Run(s, 2) == s.(regs := s.regs[RPP := s.regs[RPP] + 4], status := Stopped)
  {
    var pc := s.regs[RPP];
    NopAt(s);
    var t1 := s.(regs := s.regs[RPP := pc + 2]);
    StopAt(t1);
    assert t1.regs[RPP := pc + 4] == s.regs[RPP := pc + 4];
    RunTurn(s, 2);
    RunTurn(t1, 1);
  }

  /** SET r0, #0x002A (specifier 0x81: 16-bit, immediate); STOP. */
  lemma SetThenStop()
    ensures var t := Run(Init(Image([0x05, 0x81, 0x00, 0x2A, 0x34, 0x00]), Image([])), 2);
      t.status == Stopped && t.regs[0] == 0x2A && t.regs[RPP] == 6
  {
    var s := Init(Image([0x05, 0x81, 0x00, 0x2A, 0x34, 0x00]), Image([]));
    SetR0Immediate(s);
    var t1 := s.(regs := s.regs[RPP := 4][0 := 0x2A]);
    StopAt(t1);
    RunTurn(s, 2);
    RunTurn(t1, 1);
  }

  /** SET r0, r0; NOP; STOP at address 0: three turns that leave r0 alone. */
  lemma SetRegisterNopStop(s: State)
    requires s.status == Running && s.regs[RPP] == 0
    requires s.code[0] == 0x05 && s.code[1] == 0x80 && s.code[2] == 0x00 && s.code[4] == 0x34
    ensures Run(s, 3) == s.(regs := s.regs[RPP := 6], status := Stopped)
  {
    SetR0Register(s);
    var t1 := s.(regs := s.regs[RPP := 2]);
    NopThenStop(t1);
    assert t1.regs[RPP := 6] == s.regs[RPP := 6];
    RunTurn(s, 3);
  }

  /**
   * The same bytes with specifier 0x80 are SET r0, r0; NOP (specifier
   * 0x2A); STOP: the 0x00, 0x2A pair is not an immediate and r0 stays zero.
   */
  lemma SetWithoutImmediateBit()
    ensures var t := Run(Init(Image([0x05, 0x80, 0x00, 0x2A, 0x34, 0x00]), Image([])), 3);
      t.status == Stopped && t.regs[0] == 0 && t.regs[RPP] == 6
  {
    SetRegisterNopStop(Init(Image([0x05, 0x80, 0x00, 0x2A, 0x34, 0x00]), Image([])));
  }

  /** WR in 8-bit immediate form (specifier 0x01) writes its operand byte and no newline. */
  lemma WriteByte(s: State)
    requires s.status == Running && s.regs[RPP] <= 0xFFFC
    requires s.code[s.regs[RPP]] == 0x50 && s.code[s.regs[RPP] + 1] == 0x01
    ensures var pc := s.regs[RPP];
      Step(s) == s.(regs := s.regs[RPP := pc + 3], out := s.out + [s.code[pc + 2]])
  {
    var pc := s.regs[RPP];
    var d := Operands(false, true, 0, 0);
    assert Encode(d) == 0x01;
    assert Step(s) == ExecWr(Advance(s), d) by { StepFetches(s, Wr, d); }
    assert Advance(s).regs[RPP := pc + 3] == s.regs[RPP := pc + 3];
  }
}
