/** Machine-mode control and status registers (src/arch/riscv.rs).

    The hardware CSR file is a record of seven 64-bit registers; `csrr`/`csrw`
    become `ReadCsr`/`WriteCsr` on that record, and the `mstatus` field helpers
    are read-modify-write updates of it.  Bit positions follow section 3.1.6 of
    the RISC-V Privileged Architecture: MIE is bit 3, MPIE bit 7, MPP bits 12:11. */
module Riscv {

  /** A register-sized value (`usize` on RV64). */
  type Word = bv64

  // General-purpose register numbers
  const REG_RA: nat := 1
  const REG_SP: nat := 2

  // Privilege levels, as encoded in the MPP field
  const PRIVILEGE_USER: Word := 0
  const PRIVILEGE_SUPERVISOR: Word := 1
  const PRIVILEGE_MACHINE: Word := 3

  // System call numbers
  const SYS_WRITE: Word := 64
  const SYS_EXIT: Word := 93

  // Synchronous exception codes
  const EXCEPTION_INSTRUCTION_MISALIGNED: Word := 0
  const EXCEPTION_INSTRUCTION_ACCESS_FAULT: Word := 1
  const EXCEPTION_ILLEGAL_INSTRUCTION: Word := 2
  const EXCEPTION_BREAKPOINT: Word := 3
  const EXCEPTION_LOAD_ADDRESS_MISALIGNED: Word := 4
  const EXCEPTION_LOAD_ACCESS_FAULT: Word := 5
  const EXCEPTION_STORE_ADDRESS_MISALIGNED: Word := 6
  const EXCEPTION_STORE_ACCESS_FAULT: Word := 7
  const EXCEPTION_ECALL_FROM_USER: Word := 8
  const EXCEPTION_ECALL_FROM_SUPERVISOR: Word := 9
  const EXCEPTION_ECALL_FROM_MACHINE: Word := 11

  // Interrupt codes
  const INTERRUPT_USER_SOFTWARE: Word := 0
  const INTERRUPT_SUPERVISOR_SOFTWARE: Word := 1
  const INTERRUPT_MACHINE_SOFTWARE: Word := 3
  const INTERRUPT_USER_TIMER: Word := 4
  const INTERRUPT_SUPERVISOR_TIMER: Word := 5
  const INTERRUPT_MACHINE_TIMER: Word := 7
  const INTERRUPT_USER_EXTERNAL: Word := 8
  const INTERRUPT_SUPERVISOR_EXTERNAL: Word := 9
  const INTERRUPT_MACHINE_EXTERNAL: Word := 11

  // CSR numbers the decoder knows
  const CSR_MSTATUS: Word := 0x300
  const CSR_MIE: Word := 0x304
  const CSR_MTVEC: Word := 0x305
  const CSR_MEPC: Word := 0x341
  const CSR_MCAUSE: Word := 0x342
  const CSR_MTVAL: Word := 0x343
  const CSR_MIP: Word := 0x344

  // Field masks of mstatus
  const MSTATUS_MIE: Word := 1 << 3
  const MSTATUS_MPIE: Word := 1 << 7
  const MSTATUS_MPP: Word := 3 << 11

  /** The machine-mode CSR file. */
  datatype Csrs = Csrs(mstatus: Word, mepc: Word, mie: Word, mtvec: Word,
                       mcause: Word, mtval: Word, mip: Word)

  /** The hart whose CSR file privileged code reads and writes in place. */
  class Hart {
    var csrs: Csrs

    constructor (initial: Csrs)
      ensures csrs == initial
    {
      csrs := initial;
    }
  }

  /** CSR numbers `read_csr` decodes. */
  predicate IsReadableCsr(csr: Word) {
    csr == CSR_MSTATUS || csr == CSR_MEPC || csr == CSR_MCAUSE || csr == CSR_MTVAL ||
    csr == CSR_MIE || csr == CSR_MIP || csr == CSR_MTVEC
  }

  /** CSR numbers `write_csr` decodes. */
  predicate IsWritableCsr(csr: Word) {
    csr == CSR_MSTATUS || csr == CSR_MEPC || csr == CSR_MIE || csr == CSR_MTVEC
  }

  /** `read_csr`: decodes the CSR number; any other number reads as 0. */
  function ReadCsr(c: Csrs, csr: Word): (v: Word)
    ensures !IsReadableCsr(csr) ==> v == 0
    ensures csr == CSR_MSTATUS ==> v == c.mstatus
    ensures csr == CSR_MEPC ==> v == c.mepc
    ensures csr == CSR_MCAUSE ==> v == c.mcause
    ensures csr == CSR_MTVAL ==> v == c.mtval
    ensures csr == CSR_MIE ==> v == c.mie
    ensures csr == CSR_MIP ==> v == c.mip
    ensures csr == CSR_MTVEC ==> v == c.mtvec
  {
    if csr == CSR_MSTATUS then c.mstatus
    else if csr == CSR_MEPC then c.mepc
    else if csr == CSR_MCAUSE then c.mcause
    else if csr == CSR_MTVAL then c.mtval
    else if csr == CSR_MIE then c.mie
    else if csr == CSR_MIP then c.mip
    else if csr == CSR_MTVEC then c.mtvec
    else 0
  }

  /** `write_csr`: only mstatus, mepc, mie and mtvec are decoded; a write to any
      other number, mcause, mtval and mip included, is dropped. */
  function WriteCsr(c: Csrs, csr: Word, value: Word): (r: Csrs)
    ensures r.mcause == c.mcause && r.mtval == c.mtval && r.mip == c.mip
    ensures !IsWritableCsr(csr) ==> r == c
    ensures csr == CSR_MSTATUS ==> r == c.(mstatus := value)
    ensures csr == CSR_MEPC ==> r == c.(mepc := value)
    ensures csr == CSR_MIE ==> r == c.(mie := value)
    ensures csr == CSR_MTVEC ==> r == c.(mtvec := value)
  {
    if csr == CSR_MSTATUS then c.(mstatus := value)
    else if csr == CSR_MEPC then c.(mepc := value)
    else if csr == CSR_MIE then c.(mie := value)
    else if csr == CSR_MTVEC then c.(mtvec := value)
    else c
  }

  /** The MPP field, bits 12:11 of an mstatus value. */
  function MppOf(mstatus: Word): (p: Word)
    ensures p <= 3
    ensures p == (mstatus & MSTATUS_MPP) >> 11
  {
    (mstatus >> 11) & 0x3
  }

  /** The new mstatus value `write_mpp` computes: bits 12:11 replaced by the
      low two bits of `value`, every other bit kept. */
  function WithMpp(mstatus: Word, value: Word): (r: Word)
    ensures (r & MSTATUS_MPP) >> 11 == value & 3
    ensures r & !MSTATUS_MPP == mstatus & !MSTATUS_MPP
  {
    (mstatus & !(0x3 << 11)) | ((value & 0x3) << 11)
  }

  /** The MPIE bit, bit 7 of an mstatus value. */
  function MpieOf(mstatus: Word): (b: bool)
    ensures b <==> mstatus & MSTATUS_MPIE != 0
  {
    (mstatus >> 7) & 1 != 0
  }

  /** The new mstatus value `write_mpie` computes: bit 7 set or cleared,
      every other bit kept. */
  function WithMpie(mstatus: Word, value: bool): (r: Word)
    ensures r & MSTATUS_MPIE != 0 <==> value
    ensures r & !MSTATUS_MPIE == mstatus & !MSTATUS_MPIE
  {
    if value then mstatus | (1 << 7) else mstatus & !(1 << 7)
  }

  /** The global interrupt-enable bit MIE, bit 3 of an mstatus value. */
  function MieOf(mstatus: Word): (b: bool)
    ensures b <==> mstatus & MSTATUS_MIE != 0
  {
    (mstatus >> 3) & 1 != 0
  }

  /** The new mstatus value `write_mie_global` computes: bit 3 set or
      cleared, every other bit kept. */
  function WithMie(mstatus: Word, value: bool): (r: Word)
    ensures r & MSTATUS_MIE != 0 <==> value
    ensures r & !MSTATUS_MIE == mstatus & !MSTATUS_MIE
  {
    if value then mstatus | (1 << 3) else mstatus & !(1 << 3)
  }

  /** `read_mpp`: the previous-privilege field of mstatus. */
  function ReadMpp(c: Csrs): (p: Word)
    ensures p <= 3
    ensures p == MppOf(c.mstatus)
  {
    MppOf(ReadCsr(c, CSR_MSTATUS))
  }

  /** `write_mpp`: read-modify-write of bits 12:11; every other bit of mstatus
      and every other CSR is kept. */
  function WriteMpp(c: Csrs, value: Word): (r: Csrs)
    ensures ReadMpp(r) == value & 3
    ensures r.mstatus & !MSTATUS_MPP == c.mstatus & !MSTATUS_MPP
    ensures r == c.(mstatus := r.mstatus)
  {
    var mstatus := ReadCsr(c, CSR_MSTATUS);
    WriteCsr(c, CSR_MSTATUS, WithMpp(mstatus, value))
  }

  /** `read_mpie`: bit 7 of mstatus. */
  function ReadMpie(c: Csrs): (b: bool)
    ensures b == MpieOf(c.mstatus)
  {
    MpieOf(ReadCsr(c, CSR_MSTATUS))
  }

  /** `write_mpie`: sets or clears bit 7 and keeps the rest. */
  function WriteMpie(c: Csrs, value: bool): (r: Csrs)
    ensures ReadMpie(r) == value
    ensures r.mstatus & !MSTATUS_MPIE == c.mstatus & !MSTATUS_MPIE
    ensures r == c.(mstatus := r.mstatus)
  {
    var mstatus := ReadCsr(c, CSR_MSTATUS);
    WriteCsr(c, CSR_MSTATUS, WithMpie(mstatus, value))
  }

  /** `read_mie_global`: bit 3 of mstatus. */
  function ReadMieGlobal(c: Csrs): (b: bool)
    ensures b == MieOf(c.mstatus)
  {
    MieOf(ReadCsr(c, CSR_MSTATUS))
  }

  /** `write_mie_global`: sets or clears bit 3 and keeps the rest. */
  function WriteMieGlobal(c: Csrs, value: bool): (r: Csrs)
    ensures ReadMieGlobal(r) == value
    ensures r.mstatus & !MSTATUS_MIE == c.mstatus & !MSTATUS_MIE
    ensures r == c.(mstatus := r.mstatus)
  {
    var mstatus := ReadCsr(c, CSR_MSTATUS);
    WriteCsr(c, CSR_MSTATUS, WithMie(mstatus, value))
  }

  /** Writing any of the three privilege constants into MPP reads it back
      unchanged: each fits the 2-bit field. */
  lemma PrivilegeLevelsFitMpp(c: Csrs)
    ensures ReadMpp(WriteMpp(c, PRIVILEGE_USER)) == PRIVILEGE_USER
    ensures ReadMpp(WriteMpp(c, PRIVILEGE_SUPERVISOR)) == PRIVILEGE_SUPERVISOR
    ensures ReadMpp(WriteMpp(c, PRIVILEGE_MACHINE)) == PRIVILEGE_MACHINE
  {
  }

  /** Writing a writable CSR and reading it back gives the value written;
      the three read-only ones keep their value. */
  lemma WriteThenReadCsr(c: Csrs, csr: Word, value: Word)
    ensures ReadCsr(WriteCsr(c, csr, value), csr) ==
            if IsWritableCsr(csr) then value else ReadCsr(c, csr)
    ensures forall other :: other != csr ==> ReadCsr(WriteCsr(c, csr, value), other) == ReadCsr(c, other)
  {
  }
}
