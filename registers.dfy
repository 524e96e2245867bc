/**
 * The register file: eight 16-bit registers addressed by index as the
 * `reg16bit` table does, and the `reg8bit` byte view onto the four general
 * registers.
 */
module Registers {
  import opened Words
  import opened Instruction

  /** r0, r1, r2, r3, rsp, rpp, flags, rint, in `reg16bit` order. */
  type RegFile = r: seq<Word> | |r| == 8 witness [0, 0, 0, 0, 0, 0, 0, 0]

  /** The stack pointer. */
  const RSP: RegIndex := 4
  /** The program counter. */
  const RPP: RegIndex := 5
  /** The flags word (`rfl.value`). */
  const FLAGS: RegIndex := 6
  /** The interrupt register. */
  const RINT: RegIndex := 7

  /** The register file `emu_loop` starts with: every register zero. */
  const Cleared: RegFile := [0, 0, 0, 0, 0, 0, 0, 0]

  /**
   * `*reg8bit[i]`: entries 0 to 3 are the low bytes of r0 to r3 and
   * entries 4 to 7 their high bytes (the low byte is the one at the lower
   * address of the register, so the host is taken to be little-endian).
   */
  function Get8(r: RegFile, i: RegIndex): Byte
  {
    if i < 4 then Lo(r[i]) else Hi(r[i - 4])
  }

  /**
   * `*reg8bit[i] = b`: replaces one byte of one general register. The
   * other byte of that register, every other byte of the view and the
   * registers rsp, rpp, flags and rint keep their values.
   */
  function Set8(r: RegFile, i: RegIndex, b: Byte): (r': RegFile)
    ensures Get8(r', i) == b
    ensures forall j: RegIndex :: j != i ==> Get8(r', j) == Get8(r, j)
    ensures forall k: RegIndex :: k != i % 4 ==> r'[k] == r[k]
  {
    if i < 4 then r[i := Join(Hi(r[i]), b)] else r[i - 4 := Join(b, Lo(r[i - 4]))]
  }

  /** A byte write never reaches rsp, rpp, flags or rint. */
  lemma Set8KeepsSpecialRegisters(r: RegFile, i: RegIndex, b: Byte)
    ensures Set8(r, i, b)[RSP] == r[RSP] && Set8(r, i, b)[RPP] == r[RPP]
    ensures Set8(r, i, b)[FLAGS] == r[FLAGS] && Set8(r, i, b)[RINT] == r[RINT]
  {
  }

  /** Writing back the byte just read changes nothing. */
  lemma Set8Get8(r: RegFile, i: RegIndex)
    ensures Set8(r, i, Get8(r, i)) == r
  {
    if i < 4 {
      SplitJoin(r[i]);
    } else {
      SplitJoin(r[i - 4]);
    }
  }

  /** The bitfield view of the flags register. */
  function Flags(r: RegFile): RFlags
  {
    Unpack(r[FLAGS])
  }

  /**
   * Writing the flags bitfields back into the flags register: the flags
   * read back are the ones written and no other register changes.
   */
  function WithFlags(r: RegFile, f: RFlags): (r': RegFile)
    ensures Flags(r') == f
    ensures forall k: RegIndex :: k != FLAGS ==> r'[k] == r[k]
  {
    UnpackPack(f);
    r[FLAGS := Pack(f)]
  }
}
