# cpu16 emulator core in Dafny

This project models the core of the cpu16 emulator. That core is `emu_loop` in `emu/main.c` together with the instruction format in `emu/instruction.h`.

The machine has:

- a 64 KiB code segment;
- a 64 KiB data segment, which also holds the stack;
- eight 16-bit registers: r0 to r3, rsp, rpp (the program counter), the flags word and rint.

Each turn of the loop does three things:

1. It reads a two-byte instruction word at rpp: the opcode byte, then an operand-specifier byte.
2. It adds 2 to rpp.
3. It runs the `case` of the `switch` for that opcode.

The specifier byte is split by the `IS16`, `HASI`, `R1` and `R2` macros. The operands come from `GETA1_*` / `GETA2_*`. The 16-bit immediate is read big-endian by `stack_get_word`.

The project has two layers.

- **A functional specification.** `Semantics.Step` maps one machine `State` to the next, and `Semantics.Run` performs a bounded number of steps. Each opcode has its own handler function (`ExecLd`, …, `ExecWr`). The handlers use the ALU functions of module `Alu`, the register views of module `Registers` and the decoder of module `Instruction`.
- **An imperative model.** Class `Emulator.Cpu` keeps the two segments as arrays that are updated in place, and the register file, output and status as fields. There is one method per `case`, or per family of cases that share one shape (`Binary` for ADD, SUB, AND, OR and XOR; `Unary` for INC, DEC, NOT, SHL and SHR; `Jump` for the nine jumps; `Flag` for the nine flag opcodes). Each method is proved to leave the object in exactly the state the matching `Semantics` function gives.

Several modules prove properties over the functions:

- `Effects` covers the arithmetic, jump and flag opcodes and frame properties.
- `Transfers` covers the round trips: store then load, push then pull, call then return.
- `Properties` covers the fetch, whole turns and small programs run end to end.

Behaviour the C code leaves undefined stops the machine with an explicit fault. This covers:

- a segment access past 0xFFFF;
- a stack index below zero;
- a division by zero.

A faulting instruction keeps its rpp advance and the operands it already fetched. The memory and output writes of the faulting instruction itself are dropped, including the partial writes C would make first (see "## Left out").

Two behaviours of the code are easy to misread from the opcode names:

- `05 80 00 2A 34 00` runs as SET r0, r0; NOP (specifier 0x2A); STOP, because specifier 0x80 has no immediate bit, and r0 stays 0 (`Properties.SetWithoutImmediateBit`). SET r0, #0x002A needs specifier 0x81 (`Properties.SetThenStop`).
- 16-bit ADD of 0xFFFF + 1 leaves r0 = 0 with carry set and zero clear, because zero is tested on the unwrapped `int` sum 0x10000 (`Effects.AddWrapsWithoutZero`, with ADD r0, r1 encoded as specifier 0x82).

## Model

| member | source | states |
|---|---|---|
| Words.Wrap16 | emu/main.c:194 | `& 0xFFFF` (or a store into a `word`) keeps values in 0..0xFFFF, subtracts 2^16 from one carry out and adds 2^16 to one borrow |
| Words.Wrap8 | emu/main.c:202 | `& 0xFF` (or a store into a `byte`) keeps values in 0..0xFF and adds 2^8 to one borrow |
| Words.Lo | emu/main.c:152 | definition of `val & 0x00FF` (no contract); `Words.Join` and `Words.SplitJoin` state it |
| Words.Hi | emu/main.c:153 | definition of `(val & 0xFF00) >> 8` (no contract); `Words.Join` and `Words.SplitJoin` state it |
| Words.SplitJoin | emu/main.c:149-174 | splitting a word into the two bytes PUSH writes and joining them as PULL does gives the word back |
| Instruction.Code | emu/instruction.h:17-64 | the byte value of each enumerator (no contract); `Instruction.LookupCode` and `Instruction.CodesDistinct` state its properties |
| Instruction.Decode | emu/instruction.h:77-80 | the four macros applied to a specifier (no contract); `Instruction.DecodeEncode` and `Instruction.EncodeDecode` make it the inverse of `Encode` |
| Instruction.Encode | emu/instruction.h:77-80 | the specifier byte for the four fields (no contract); inverse of `Decode`, as the two round-trip lemmas state |
| Instruction.Pack | emu/instruction.h:5-15 | the `value` view of the `RFlags` union (no contract); `UnpackPack`, `PackUnpack`, `PackHigh` and `FlagBits` state its layout |
| Instruction.Unpack | emu/instruction.h:5-15 | the bitfield view of the `RFlags` union (no contract); inverse of `Pack` by `UnpackPack` and `PackUnpack` |
| Registers.Get8 | emu/main.c:97-100 | `*reg8bit[i]` (no contract): low bytes of r0-r3 for 0-3, high bytes for 4-7; `Registers.Set8` and `Registers.Set8Get8` state it |
| Registers.Flags | emu/main.c:91 | `rfl` read through its bitfields (no contract); `Registers.WithFlags` states that flags written read back |
| Semantics.Init | emu/main.c:85-102 | the loop's starting state (no contract): loaded segments, all registers zero, running; `Emulator.Cpu.constructor` builds it |
| Semantics.LoadWord | emu/main.c:115 | a raw `word*` load, low byte first (no contract); `Semantics.StoreWord` states that a stored word loads back |
| Semantics.BigWord | emu/main.c:50-55 | the big-endian word `stack_get_word` reads (no contract); `Semantics.Imm16` and `Semantics.StoreBigWord` state it |
| Semantics.Arg16 | emu/main.c:61-64 | `GETA?_16`: the immediate with its rpp movement when HASI is set, otherwise register r with rpp unmoved |
| Semantics.Arg8 | emu/main.c:65-66 | `GETA?_8`: a byte, the code byte at rpp (rpp + 1) when HASI is set, otherwise `*reg8bit[r]` with rpp unmoved |
| Semantics.ExecLd | emu/main.c:111-121 | LD (no contract): address always from R2; `Transfers.StoreThenLoad` and `Effects.TransferFrame` state its effect; `Emulator.Cpu.Ld` implements it |
| Semantics.ExecLp | emu/main.c:122-130 | LP (no contract); `Effects.TransferFrame` states its frame; `Emulator.Cpu.Lp` implements it |
| Semantics.ExecSd | emu/main.c:131-139 | SD (no contract); `Transfers.StoreThenLoad` states its effect; `Emulator.Cpu.Sd` implements it |
| Semantics.ExecSp | emu/main.c:140-148 | SP (no contract); `Effects.TransferFrame` states it is the only transfer writing code; `Emulator.Cpu.Sp` implements it |
| Semantics.ExecSet | emu/main.c:175-184 | SET (no contract); `Transfers.SetImmediateEffect` and `Properties.SetRegisterStep` state its effect |
| Semantics.ExecPush | emu/main.c:149-162 | PUSH (no contract); `Transfers.PushThenPull16` and `Transfers.PushThenPull8` state its effect with PULL |
| Semantics.ExecPull | emu/main.c:163-174 | PULL (no contract); the two push/pull round-trip lemmas state its effect |
| Semantics.ExecBinary | emu/main.c:185-205 | ADD (and SUB, AND, OR, XOR) (no contract); `Effects.AddEffect`, `Effects.CmpEffect` and the `Alu` contracts state its effect |
| Semantics.ExecUnary | emu/main.c:206-223 | INC (and DEC, NOT, SHL, SHR) (no contract); `Effects.Not8Effect` and the `Alu` contracts state its effect |
| Semantics.ExecCmp | emu/main.c:262-279 | CMP (no contract); `Effects.CmpEffect` states its effect |
| Semantics.ExecMul | emu/main.c:280-311 | MUL (no contract); `Effects.MulEffect` and `Effects.MulSameRegisterEffect` state its effect |
| Semantics.ExecDiv | emu/main.c:312-338 | DIV (no contract); `Effects.DivEffect`, `Effects.DivSameRegisterEffect` and `Effects.DivByZeroEffect` state its effect |
| Semantics.Taken | emu/main.c:437-445 | the condition of each jump (no contract); `Effects.JumpConditions` states it |
| Semantics.ExecJump | emu/main.c:68-82 | `JMP` / `JMPI` (no contract); `Effects.JumpEffect` states its effect |
| Semantics.ExecCall | emu/main.c:446-456 | CALL (no contract); `Transfers.CallEffect` states its effect |
| Semantics.ExecRetf | emu/main.c:457-463 | RETF (no contract); `Transfers.CallThenRetf` states its effect after CALL |
| Semantics.FlagOp | emu/main.c:464-479 | the flags after a flag opcode (no contract); `Effects.FlagOpEffect` states it |
| Semantics.ExecFlag | emu/main.c:464-479 | the flag opcodes' case (no contract); `Effects.FlagCase` and `Effects.FlagOpEffect` state it |
| Semantics.ExecWr | emu/main.c:480-489 | WR (no contract); `Effects.WrFrame` and `Properties.WriteByte` state its effect |
| Semantics.ExecuteTransfer | emu/main.c:111-184 | the transfer cases (no contract); `Effects.TransferFrame` states their frame |
| Semantics.ExecuteTwoOperand | emu/main.c:185-404 | the two-operand cases (no contract); `Effects.TwoOperandFrame` states their frame |
| Semantics.ExecuteOneOperand | emu/main.c:206-436 | the one-operand cases (no contract); `Effects.OneOperandFrame` states their frame |
| Semantics.ExecuteControl | emu/main.c:437-489 | the remaining cases (no contract); `Effects.ControlFrame`, `Effects.JumpCase`, `Effects.FlagCase` and `Effects.NoOpCase` state them |
| Semantics.Execute | emu/main.c:108-491 | the `switch (op.op)` (no contract); `Effects.ExecuteFrame` states its frame |
| Semantics.Advance | emu/main.c:106 | `rpp += 2` (no contract); `Properties.StepFetches` states its place in a turn |
| Semantics.Step | emu/main.c:104-108 | one turn (no contract); `Properties.StepFetches`, `Properties.UnknownOpcode` and `Properties.StepFrame` state it |
| Semantics.Run | emu/main.c:104-492 | up to `fuel` turns, stopping at STOP or a fault (no contract); `Semantics.RunTurn` and `Properties.RunOutputGrows` state it |
| Words.Join | emu/main.c:50-55 | `(upper << 8) + lower` is the word whose high byte is `upper` and low byte `lower` |
| Semantics.Imm16 | emu/main.c:50-55 | `stack_get_word(code, &rpp)`: the value is the big-endian word at rpp; rpp moves on by 2 (wrapping); there is no value (a fault) exactly when rpp = 0xFFFF |
| Semantics.Imm8 | emu/main.c:65-66 | `code[rpp++]`: the value is the code byte at rpp, and rpp moves on by 1 (wrapping) |
| Emulator.Cpu.FetchArg16 | emu/main.c:61-64 | `GETA?_16` in place: it returns the immediate (moving rpp) or register r (rpp unmoved), or fails, as `Arg16` says |
| Emulator.Cpu.FetchArg8 | emu/main.c:65-66 | `GETA?_8` in place: it returns the byte immediate (rpp + 1) or `*reg8bit[r]`, as `Arg8` says |
| Semantics.StoreWord | emu/main.c:131-139 | a raw `word*` store puts the low byte at a and the high byte at a + 1; the word loads back and no other byte changes |
| Semantics.StoreBigWord | emu/main.c:149-156 | the stack store puts the high byte at rsp and the low byte at rsp + 1; it reads back big-endian and no other byte changes |
| Semantics.CString | emu/main.c:480-483 | what `puts(&data[a])` prints is exactly the bytes from a up to, not including, the first NUL; there is none when no NUL follows before the end of the segment |
| Semantics.RunTurn | emu/main.c:104-106 | a run of n > 0 turns from a running state is one turn followed by n - 1 turns |
| Instruction.Lookup | emu/main.c:108 | the `switch (op.op)`: any opcode found for a byte has that byte as its enum value |
| Instruction.LookupCode | emu/instruction.h:17-64 | every opcode of `enum OP` is found again from its byte value |
| Instruction.CodesDistinct | emu/instruction.h:17-64 | two different opcodes have different byte values |
| Instruction.R1 | emu/instruction.h:79 | `R1` is a register index in 0..7 |
| Instruction.R2 | emu/instruction.h:80 | `R2` is a register index in 0..7 |
| Instruction.WidthAndImmediateBits | emu/instruction.h:77-78 | `IS16` depends only on bit 7 (it holds exactly for specifiers ≥ 0x80); `HASI` depends only on bit 0 |
| Instruction.R1Bits | emu/instruction.h:79 | `R1` shifted back into place is exactly bits 6-4 of the specifier |
| Instruction.R2Bits | emu/instruction.h:80 | `R2` shifted back into place is exactly bits 3-1 of the specifier |
| Instruction.DecodeEncode | emu/instruction.h:77-80 | decoding an encoded (width, immediate, R1, R2) gives the same four fields |
| Instruction.EncodeDecode | emu/instruction.h:77-80 | every specifier byte is the encoding of its decoding: the four macros together use all eight bits |
| Instruction.UnpackPack | emu/instruction.h:5-15 | reading the bitfields of the packed flags word gives the same five flags and eleven unused bits |
| Instruction.PackUnpack | emu/instruction.h:5-15 | every 16-bit flags word is the packing of its bitfields |
| Instruction.PackHigh | emu/instruction.h:5-15 | bits 4-15 of the flags word hold int_enable and the unused bits, whatever the four flags are |
| Instruction.PackHighEqual | emu/instruction.h:5-15 | flags that agree on int_enable and the unused bits agree on bits 4-15 of the word |
| Instruction.FlagBits | emu/instruction.h:8-13 | zero, negative, carry, overflow and int_enable are bits 0 to 4, and the unused field starts at bit 5 |
| Registers.Set8 | emu/main.c:97-100 | `*reg8bit[i] = b`: entries 0-3 are the low bytes and 4-7 the high bytes of r0-r3; the byte reads back; every other byte view and every other register keep their values |
| Registers.Set8KeepsSpecialRegisters | emu/main.c:97-100 | a byte write never reaches rsp, rpp, flags or rint |
| Registers.Set8Get8 | emu/main.c:97-100 | writing back the byte just read changes nothing |
| Registers.WithFlags | emu/main.c:91-95 | a write to `rfl`'s bitfields goes to register 6 of `reg16bit`: the flags read back and no other register changes |
| Alu.Add16 | emu/main.c:186-195 | the stored word plus carry × 2^16 is the exact sum; zero holds iff both operands are 0 (it is tested on the unwrapped sum); only carry and zero change |
| Alu.Add8 | emu/main.c:196-203 | the byte plus carry × 2^8 is the exact sum; zero holds iff the masked sum is 0; only carry and zero change |
| Alu.Inc16 | emu/main.c:207-214 | the result plus carry × 2^16 is a + 1; carry holds iff a = 0xFFFF; zero is always cleared |
| Alu.Inc8 | emu/main.c:215-221 | the same in 8 bits: carry holds iff a = 0xFF, and zero is always cleared (it is tested before masking) |
| Alu.Sub16 | emu/main.c:225-232 | the result minus borrow × 2^16 is a − b; negative holds iff a < b; zero holds iff a = b; only those two flags change |
| Alu.Sub8 | emu/main.c:233-240 | the same in 8 bits |
| Alu.Dec16 | emu/main.c:245-252 | the result minus borrow × 2^16 is a − 1; negative holds iff a = 0; zero holds iff a = 1 |
| Alu.Dec8 | emu/main.c:253-259 | the same in 8 bits |
| Alu.Cmp16 | emu/main.c:263-270 | negative holds iff a < b; zero holds iff a = b |
| Alu.Cmp8 | emu/main.c:271-278 | the same in 8 bits |
| Alu.CmpIsSubFlags | emu/main.c:262-279 | CMP leaves exactly the flags SUB leaves, in both widths |
| Alu.Mul16 | emu/main.c:281-295 | low + 2^16 × high is the exact product; overflow holds iff high ≠ 0 iff the product exceeds 0xFFFF; carry is cleared (the UINT32_MAX test never holds); zero holds iff a factor is 0 |
| Alu.Mul8 | emu/main.c:297-309 | low + 2^8 × high is the product; overflow holds iff the product exceeds 0xFF; carry keeps its old value; zero is only ever set (old zero, or a factor is 0) |
| Alu.Div16 | emu/main.c:313-324 | for a nonzero divisor, quotient × b + remainder = a with remainder < b; zero holds iff a < b; carry holds iff the division is inexact |
| Alu.Div8 | emu/main.c:326-336 | the same in 8 bits |
| Alu.Not16 | emu/main.c:340-343 | the value is `~a` on an unsigned word, 0xFFFF − a; zero holds iff the operand is 0xFFFF; only zero changes |
| Alu.Not8 | emu/main.c:344-347 | the value is `(byte)~a`, 0xFF − a; zero holds iff the operand byte is 0xFF |
| Alu.NotInvolution | emu/main.c:339-350 | NOT applied twice gives the operand back, in both widths |
| Alu.AndOp | emu/main.c:351-368 | zero holds iff the result is 0, and it always holds when an operand is 0; 8-bit results are bytes; the bitwise value itself is not stated |
| Alu.OrOp | emu/main.c:369-386 | zero holds iff both operands are 0; 8-bit results are bytes; the bitwise value itself is not stated |
| Alu.XorOp | emu/main.c:387-404 | zero holds iff the result is 0; equal operands give 0; 8-bit results are bytes; the bitwise value itself is not stated |
| Alu.Shl16 | emu/main.c:406-411 | the result is 2 × (a mod 2^15), so bit 15 is lost; zero holds iff the low 15 bits were clear |
| Alu.Shl8 | emu/main.c:412-417 | the result is 2 × (a mod 2^7); zero holds iff the low 7 bits were clear |
| Alu.Shr | emu/main.c:421-436 | the result is ⌊a / 2⌋; zero holds iff a ≤ 1 |
| Effects.AddEffect | emu/main.c:185-195 | 16-bit register ADD: R1 becomes (a + b) mod 2^16; carry says it wrapped; zero holds iff both are 0; every other flag, register and memory is unchanged |
| Effects.AddWrapsWithoutZero | emu/main.c:185-195 | ADD r0, r1 (specifier 0x82) with r0 = 0xFFFF and r1 = 1 leaves r0 = 0 with carry set and zero clear |
| Effects.CmpEffect | emu/main.c:262-279 | CMP leaves the flags and rpp exactly as SUB with the same specifier would; it writes no other register and no memory |
| Effects.MulEffect | emu/main.c:280-296 | 16-bit MUL on distinct registers: R1 = low half and R2 = high half of the full product; overflow iff it exceeds 0xFFFF; carry cleared; zero iff a factor is 0; other registers unchanged |
| Effects.MulSameRegisterEffect | emu/main.c:280-296 | MUL with R1 = R2 leaves the high half of the square, since R2 is written last |
| Effects.DivEffect | emu/main.c:312-325 | 16-bit DIV on distinct registers with a nonzero divisor: R1 = a / b and R2 = a mod b; zero iff a < b; carry iff the remainder is nonzero; other registers unchanged |
| Effects.DivSameRegisterEffect | emu/main.c:312-325 | DIV with R1 = R2 ≠ 0 leaves 1, since R1 is written last |
| Effects.DivByZeroEffect | emu/main.c:312-338 | a zero divisor, in either width, faults and changes nothing else |
| Effects.Not8Effect | emu/main.c:344-348 | 8-bit NOT stores 0xFF − b, b the byte `*reg8bit[R1]`, into the whole 16-bit register R1 (rsp, rpp, flags or rint when R1 ≥ 4); other registers, memory and output unchanged; unless R1 is the flags register, only zero changes among the flags |
| Effects.Not8IntoFlags | emu/main.c:344-348 | 8-bit NOT with R1 = 6 replaces the flags word by 0xFF − (high byte of r2) |
| Effects.NoOpCase | emu/main.c:110 | NOP, and INT, HALT and RD (which have no case), leave the state as the fetch left it |
| Effects.JumpConditions | emu/main.c:437-445 | JMP always jumps; JIZ/JNZ, JIN/JNN, JIC/JNC and JIO/JNO test zero, negative, carry and overflow, each pair in opposite senses |
| Effects.JumpCase | emu/main.c:437-445 | all nine jump opcodes run the shared jump handler |
| Effects.JumpEffect | emu/main.c:74-82 | a jump consumes its operand (rpp + 2 with an immediate) and then sets rpp to the target exactly when its condition holds; nothing else changes |
| Effects.FlagCase | emu/main.c:464-479 | CFL and the eight single-flag opcodes run the shared flag handler |
| Effects.FlagOpEffect | emu/main.c:464-479 | CFL clears the four flags; each CxF/SxF clears or sets exactly its flag; int_enable and the unused bits keep their values |
| Effects.FlagOpKeepsHighBits | emu/main.c:464-479 | a flag opcode leaves bits 4-15 of the flags word as they were |
| Effects.TransferFrame | emu/main.c:111-184 | LD, LP, SD, SP, SET, PUSH and PULL write no output, and only SP can change the code segment |
| Effects.TwoOperandFrame | emu/main.c:185-404 | the two-operand opcodes write neither the output nor the code segment |
| Effects.OneOperandFrame | emu/main.c:206-436 | INC, DEC, NOT, SHL and SHR write neither the output nor the code segment |
| Effects.ControlFrame | emu/main.c:437-489 | the jump, call, flag, STOP and WR cases only append to the output and never change the code segment |
| Effects.WrFrame | emu/main.c:480-489 | WR only appends to the output |
| Effects.ExecuteFrame | emu/main.c:108-491 | any case of the switch only appends to the output, and only SP can change the code segment |
| Transfers.SetImmediateEffect | emu/main.c:175-184 | SET with an immediate: the 16-bit form loads the big-endian word at rpp into R1 and moves rpp by 2; the 8-bit form loads the byte and moves rpp by 1; nothing else changes |
| Transfers.StoreThenLoad | emu/main.c:111-139 | a 16-bit SD through register R2 followed by a 16-bit LD through the same R2 loads the stored word; the data segment holds it low byte first |
| Transfers.PushThenPull16 | emu/main.c:149-174 | a 16-bit PUSH followed by a 16-bit PULL gives the pulled register the pushed value and puts rsp back; the stack holds the word big-endian |
| Transfers.PushThenPull8 | emu/main.c:149-174 | an 8-bit PUSH then PULL puts rsp back but pulls the byte above the pushed one, because the 8-bit PULL reads at rsp before decrementing |
| Transfers.CallEffect | emu/main.c:446-456 | CALL stores the address after its operand big-endian at rsp, adds 2 to rsp and sets rpp to the target |
| Transfers.CallThenRetf | emu/main.c:446-463 | RETF executed at CALL's target resumes just past CALL's operand with every register as before |
| Properties.StepFetches | emu/main.c:104-108 | a turn reads the opcode at rpp and the specifier after it, adds 2 to rpp and runs that opcode's case |
| Properties.UnknownOpcode | emu/main.c:104-108 | a byte that is no opcode only advances rpp by 2; an instruction fetch at rpp = 0xFFFF faults |
| Properties.TwoFetches | emu/main.c:104-108 | two turns are two fetch-and-execute pairs, the second fetched where the first left rpp |
| Properties.StepFrame | emu/main.c:104-491 | a turn only appends to the output, and changes the code segment only when it executes SP |
| Properties.RunOutputGrows | emu/main.c:104-492 | any number of turns only appends to the output |
| Properties.SetRegisterStep | emu/main.c:175-184 | a 16-bit register-form SET copies R2 into R1 after the fetch |
| Properties.NoOpStep | emu/main.c:110 | a NOP, INT, HALT or RD turn only advances rpp |
| Properties.StopStep | emu/main.c:471 | STOP ends the loop after rpp has moved past it |
| Properties.NopAt | emu/main.c:110 | a 0x00 byte at rpp is skipped together with any specifier byte |
| Properties.StopAt | emu/main.c:471 | a 0x34 byte at rpp stops the machine with rpp 2 further on |
| Properties.SetR0ImmediateCase | emu/main.c:175-184 | the SET r0, #0x002A case leaves r0 = 0x2A and rpp = 4 |
| Properties.SetR0Immediate | emu/main.c:175-184 | the bytes 05 81 00 2A at address 0 set r0 to 0x2A and rpp to 4 |
| Properties.SetR0Register | emu/main.c:175-184 | the bytes 05 80 at address 0 are SET r0, r0 and only advance rpp |
| Properties.NopThenStop | emu/main.c:104-110 | NOP then STOP: two turns move rpp by 4 and stop the machine |
| Properties.SetThenStop | emu/main.c:175-184 | the program 05 81 00 2A 34 00 stops after two turns with r0 = 0x2A and rpp = 6 |
| Properties.SetRegisterNopStop | emu/main.c:104-184 | SET r0, r0; NOP; STOP at address 0: three turns leave every register but rpp alone and stop |
| Properties.SetWithoutImmediateBit | emu/instruction.h:78 | the program 05 80 00 2A 34 00 stops after three turns with r0 = 0, because 0x80 has no immediate bit |
| Properties.WriteByte | emu/main.c:484-487 | an 8-bit immediate WR appends its operand byte to the output and moves rpp by 3 |
| Emulator.Cpu.constructor | emu/main.c:84-102 | the loop starts from the loaded segments with every register zero, an empty output and the machine running |
| Emulator.Cpu.Ld | emu/main.c:111-121 | LD in place: the new state is `ExecLd` of the old one (the address always comes from R2) |
| Emulator.Cpu.Lp | emu/main.c:122-130 | LP in place: the new state is `ExecLp` of the old one |
| Emulator.Cpu.Sd | emu/main.c:131-139 | SD in place, storing into the data array: the new state is `ExecSd` of the old one |
| Emulator.Cpu.Sp | emu/main.c:140-148 | SP in place, storing into the code array: the new state is `ExecSp` of the old one |
| Emulator.Cpu.SetReg | emu/main.c:175-184 | SET in place: the new state is `ExecSet` of the old one |
| Emulator.Cpu.PushWord | emu/main.c:150-156 | the data array gets the word big-endian at rsp, and rsp grows by 2 |
| Emulator.Cpu.Push | emu/main.c:149-162 | PUSH in place: the new state is `ExecPush` of the old one |
| Emulator.Cpu.Pull | emu/main.c:163-174 | PULL in place: the new state is `ExecPull` of the old one |
| Emulator.Cpu.Binary | emu/main.c:185-205 | ADD (and SUB, AND, OR, XOR, which share its shape) in place: the new state is `ExecBinary` of the old one |
| Emulator.Cpu.Unary | emu/main.c:206-223 | INC (and DEC, NOT, SHL, SHR) in place: the new state is `ExecUnary` of the old one |
| Emulator.Cpu.Compare | emu/main.c:262-279 | CMP in place: the new state is `ExecCmp` of the old one |
| Emulator.Cpu.Multiply | emu/main.c:280-311 | MUL in place: the new state is `ExecMul` of the old one |
| Emulator.Cpu.Divide | emu/main.c:312-338 | DIV in place: the new state is `ExecDiv` of the old one |
| Emulator.Cpu.Jump | emu/main.c:437-445 | JMP and the conditional jumps in place: the new state is `ExecJump` of the old one |
| Emulator.Cpu.Call | emu/main.c:446-456 | CALL in place: the new state is `ExecCall` of the old one |
| Emulator.Cpu.Return | emu/main.c:457-463 | RETF in place: the new state is `ExecRetf` of the old one |
| Emulator.Cpu.Flag | emu/main.c:464-479 | CFL and the single-flag opcodes in place: the new state is `ExecFlag` of the old one |
| Emulator.Cpu.Write | emu/main.c:480-489 | WR in place: the new state is `ExecWr` of the old one |
| Emulator.Cpu.Execute | emu/main.c:108-491 | the switch in place: the new state is `Semantics.Execute` of the old one |
| Emulator.Cpu.ExecuteTransfer | emu/main.c:111-184 | the transfer cases in place, as `Semantics.ExecuteTransfer` says |
| Emulator.Cpu.ExecuteTwoOperand | emu/main.c:185-404 | the two-operand cases in place, as `Semantics.ExecuteTwoOperand` says |
| Emulator.Cpu.ExecuteOneOperand | emu/main.c:206-436 | the one-operand cases in place, as `Semantics.ExecuteOneOperand` says |
| Emulator.Cpu.ExecuteControl | emu/main.c:437-489 | the control cases in place, as `Semantics.ExecuteControl` says |
| Emulator.Cpu.Step | emu/main.c:104-108 | one turn in place (fetch, rpp += 2, dispatch): the new state is `Semantics.Step` of the old one |
| Emulator.Cpu.Run | emu/main.c:104-492 | the loop in place, cut off after `fuel` turns: the new state is `Semantics.Run` of the old one |

## Left out

- `read_memfile` and `main` (emu/main.c:14-48 and 497-522) are left out. They read the segment images from files and report usage errors; the model takes both images as parameters (`Semantics.Init`, `Emulator.Cpu.constructor`).
- `little2big` (emu/main.c:57-59) is never called by the loop.
- The `did_jump` flag is left out. It is written but never read.
- Standard output is modelled as a byte sequence that WR appends to. WR in 16-bit form appends the NUL-terminated string and a newline, as `puts` does; in 8-bit form it appends one byte. Buffering and write errors are not modelled.
- INT, HALT and RD have enum values but no `case` in the switch, so they only advance rpp. Nothing about interrupts (rint, int_enable) is modelled beyond storing them.
- Emulator.Cpu.Run: the loop runs until STOP with no bound; `Run` takes a fuel count, and a program that never stops is seen only up to that many turns.
- Accesses the C code leaves undefined become explicit faults (`Faulted(OutOfBounds)`, `Faulted(DivisionByZero)`) that stop the machine. These are:
  - an instruction fetch or a 16-bit immediate at rpp = 0xFFFF;
  - a 16-bit memory access at 0xFFFF;
  - a 16-bit PUSH or CALL at rsp = 0xFFFF;
  - a 16-bit PULL or RETF below rsp = 2;
  - a 16-bit WR with no NUL before the end of the data segment;
  - DIV by zero.

  The C program's actual behaviour in those cases is not modelled.
- Alu.Mul16: 16-bit MUL multiplies two `word`s promoted to `int`, and products above 2^31 − 1 overflow a signed `int` in C. The model uses the exact product, which is what the authors evidently meant.
- The host is taken to be little-endian, so `reg8bit[4..7]` are the high bytes and `word*` loads read the low byte first. A big-endian host is not modelled.
- Alu.AndOp: the contract does not state the bitwise value of the result (it is computed with a bit-vector AND); it states only how the result relates to the zero flag and the operands being zero. Relating bit-vector results back to the integers costs the verifier too much.
- Alu.OrOp: the contract does not state the bitwise value of the result, for the same reason; it states only that zero holds iff both operands are 0.
- Alu.XorOp: the contract does not state the bitwise value of the result, for the same reason; it states only the zero flag and that equal operands give 0.
- Partial writes before a fault are dropped: a 16-bit PUSH or CALL at rsp = 0xFFFF faults without the high byte C writes to `data[0xFFFF]` first, and a 16-bit WR whose string has no NUL faults without the bytes `puts` would print first.
- No lemma composes the run of a whole program of arbitrary length out of its steps beyond the small programs in `Properties`.
