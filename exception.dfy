/** Trap classification (src/kernel/exception.rs).

    `handle_exception` reads mcause, mepc and mtval and classifies the trap:
    bit 63 of mcause selects interrupt or exception (section 3.1.15 of the
    RISC-V Privileged Architecture).  The handlers only report on the console,
    so here each one is a pure function from the register values to the
    classification it reports.  The syscall number the source takes from
    register a7 is a parameter. */
module Exception {
  import opened Riscv

  const INTERRUPT_BIT: Word := 1 << 63
  /** The mask `handle_exception` applies to an interrupt cause. */
  const INTERRUPT_CODE_MASK: Word := 0x7FFFFFFF

  datatype InterruptKind = TimerInterrupt | ExternalInterrupt | UnknownInterrupt(code: Word)

  datatype SyscallKind = WriteCall | ExitCall | UnknownSyscall(num: Word)

  datatype ExceptionKind =
    | InstructionMisaligned
    | InstructionAccessFault
    | IllegalInstruction
    | Breakpoint
    | LoadAddressMisaligned
    | LoadAccessFault
    | StoreAddressMisaligned
    | StoreAccessFault
    | EcallFromUser(syscall: SyscallKind)
    | EcallFromSupervisor
    | EcallFromMachine
    | UnknownException(code: Word)

  /** What one trap is reported as.  An exception report also carries the
      mepc and mtval values printed after it. */
  datatype Trap =
    | Interrupt(interrupt: InterruptKind)
    | Exception(exception: ExceptionKind, mepc: Word, mtval: Word)

  /** `handle_interrupt`: only the machine timer (7) and machine external (11)
      codes are recognised. */
  function HandleInterrupt(code: Word): (k: InterruptKind)
    ensures k == TimerInterrupt <==> code == INTERRUPT_MACHINE_TIMER
    ensures k == ExternalInterrupt <==> code == INTERRUPT_MACHINE_EXTERNAL
    ensures k.UnknownInterrupt? ==> k.code == code
  {
    if code == INTERRUPT_MACHINE_TIMER then TimerInterrupt
    else if code == INTERRUPT_MACHINE_EXTERNAL then ExternalInterrupt
    else UnknownInterrupt(code)
  }

  /** `handle_syscall`: write (64) and exit (93) are named, every other number
      is reported as unknown. */
  function HandleSyscall(num: Word): (k: SyscallKind)
    ensures k == WriteCall <==> num == SYS_WRITE
    ensures k == ExitCall <==> num == SYS_EXIT
    ensures k.UnknownSyscall? ==> k.num == num
  {
    if num == SYS_WRITE then WriteCall
    else if num == SYS_EXIT then ExitCall
    else UnknownSyscall(num)
  }

  /** `handle_exception_code`: codes 0-9 and 11 have an arm each; only an
      environment call from user mode (8) decodes the syscall number. */
  function HandleExceptionCode(code: Word, a7: Word): (k: ExceptionKind)
    ensures k.EcallFromUser? <==> code == EXCEPTION_ECALL_FROM_USER
    ensures k.EcallFromUser? ==> k.syscall == HandleSyscall(a7)
    ensures k.UnknownException? <==> (code == 10 || code > 11)
  {
    if code == EXCEPTION_INSTRUCTION_MISALIGNED then InstructionMisaligned
    else if code == EXCEPTION_INSTRUCTION_ACCESS_FAULT then InstructionAccessFault
    else if code == EXCEPTION_ILLEGAL_INSTRUCTION then IllegalInstruction
    else if code == EXCEPTION_BREAKPOINT then Breakpoint
    else if code == EXCEPTION_LOAD_ADDRESS_MISALIGNED then LoadAddressMisaligned
    else if code == EXCEPTION_LOAD_ACCESS_FAULT then LoadAccessFault
    else if code == EXCEPTION_STORE_ADDRESS_MISALIGNED then StoreAddressMisaligned
    else if code == EXCEPTION_STORE_ACCESS_FAULT then StoreAccessFault
    else if code == EXCEPTION_ECALL_FROM_USER then EcallFromUser(HandleSyscall(a7))
    else if code == EXCEPTION_ECALL_FROM_SUPERVISOR then EcallFromSupervisor
    else if code == EXCEPTION_ECALL_FROM_MACHINE then EcallFromMachine
    else UnknownException(code)
  }

  /** The exception code an exception report stands for: the inverse of
      `HandleExceptionCode`. */
  function ExceptionCodeOf(k: ExceptionKind): Word {
    match k
    case InstructionMisaligned => EXCEPTION_INSTRUCTION_MISALIGNED
    case InstructionAccessFault => EXCEPTION_INSTRUCTION_ACCESS_FAULT
    case IllegalInstruction => EXCEPTION_ILLEGAL_INSTRUCTION
    case Breakpoint => EXCEPTION_BREAKPOINT
    case LoadAddressMisaligned => EXCEPTION_LOAD_ADDRESS_MISALIGNED
    case LoadAccessFault => EXCEPTION_LOAD_ACCESS_FAULT
    case StoreAddressMisaligned => EXCEPTION_STORE_ADDRESS_MISALIGNED
    case StoreAccessFault => EXCEPTION_STORE_ACCESS_FAULT
    case EcallFromUser(_) => EXCEPTION_ECALL_FROM_USER
    case EcallFromSupervisor => EXCEPTION_ECALL_FROM_SUPERVISOR
    case EcallFromMachine => EXCEPTION_ECALL_FROM_MACHINE
    case UnknownException(code) => code
  }

  /** The interrupt code an interrupt report stands for: the inverse of
      `HandleInterrupt`. */
  function InterruptCodeOf(k: InterruptKind): Word {
    match k
    case TimerInterrupt => INTERRUPT_MACHINE_TIMER
    case ExternalInterrupt => INTERRUPT_MACHINE_EXTERNAL
    case UnknownInterrupt(code) => code
  }

  /** Bit 63 of mcause: set for an interrupt, clear for an exception. */
  function IsInterruptCause(mcause: Word): (b: bool)
    ensures b <==> mcause >= INTERRUPT_BIT
  {
    mcause & (1 << 63) != 0
  }

  /** The interrupt code `handle_exception` extracts: only bits 0-30 of
      mcause survive the mask; bits 31-63 are dropped. */
  function InterruptCode(mcause: Word): (code: Word)
    ensures code < 1 << 31
    ensures code == mcause % (1 << 31)
  {
    mcause & 0x7FFFFFFF
  }

  /** `handle_exception`: classify the trap held in the CSR file.  An
      interrupt's code is mcause masked with 0x7FFFFFFF; an exception's code
      is mcause unchanged. */
  function HandleException(c: Csrs, a7: Word): (t: Trap)
    ensures t.Interrupt? <==> IsInterruptCause(c.mcause)
    ensures t.Interrupt? ==> InterruptCodeOf(t.interrupt) == InterruptCode(c.mcause)
    ensures t.Exception? ==> ExceptionCodeOf(t.exception) == c.mcause
    ensures t.Exception? ==> t.mepc == c.mepc && t.mtval == c.mtval
  {
    var mcause := ReadCsr(c, CSR_MCAUSE);
    var mepc := ReadCsr(c, CSR_MEPC);
    var mtval := ReadCsr(c, CSR_MTVAL);
    if IsInterruptCause(mcause) then
      InterruptClassificationRoundTrip(InterruptCode(mcause));
      Interrupt(HandleInterrupt(InterruptCode(mcause)))
    else
      ExceptionClassificationRoundTrip(mcause, a7);
      Exception(HandleExceptionCode(mcause, a7), mepc, mtval)
  }

  /** Classifying a code and reading the code back gives the code again:
      no two exception codes share a report. */
  lemma ExceptionClassificationRoundTrip(code: Word, a7: Word)
    ensures ExceptionCodeOf(HandleExceptionCode(code, a7)) == code
  {
  }

  lemma InterruptClassificationRoundTrip(code: Word)
    ensures InterruptCodeOf(HandleInterrupt(code)) == code
  {
  }

  /** An mcause written in the standard encoding (bit 63 set for an
      interrupt, the code in the low bits) is classified by its code, as
      long as the code fits the 31-bit mask. */
  lemma StandardEncodingClassified(c: Csrs, isInterrupt: bool, code: Word, a7: Word)
    requires code < 1 << 31
    requires c.mcause == if isInterrupt then INTERRUPT_BIT | code else code
    ensures HandleException(c, a7) ==
            if isInterrupt then Interrupt(HandleInterrupt(code))
            else Exception(HandleExceptionCode(code, a7), c.mepc, c.mtval)
  {
    EncodedCauseBits(code);
  }

  /** The bit-level facts behind `StandardEncodingClassified`. */
  lemma EncodedCauseBits(code: Word)
    requires code < 1 << 31
    ensures (INTERRUPT_BIT | code) & (1 << 63) != 0
    ensures (INTERRUPT_BIT | code) & 0x7FFFFFFF == code
    ensures code & (1 << 63) == 0
  {
  }

  /** Bits 31-62 of an interrupt cause are discarded: a cause with bit 31 set
      besides the machine-timer code is still reported as the machine timer. */
  lemma InterruptHighBitsIgnored(c: Csrs, a7: Word)
    requires c.mcause == INTERRUPT_BIT | (1 << 31) | INTERRUPT_MACHINE_TIMER
    ensures HandleException(c, a7) == Interrupt(TimerInterrupt)
  {
    assert IsInterruptCause(c.mcause);
    assert InterruptCode(c.mcause) == INTERRUPT_MACHINE_TIMER;
  }

  /** Only an environment call from user mode reaches syscall decoding. */
  lemma OnlyUserEcallDecodesSyscall(c: Csrs, a7: Word, a7': Word)
    requires c.mcause != EXCEPTION_ECALL_FROM_USER
    ensures HandleException(c, a7) == HandleException(c, a7')
  {
    if !IsInterruptCause(c.mcause) {
      ExceptionCodeIgnoresA7(c.mcause, a7, a7');
    }
  }

  /** Every exception code except 8 is classified without looking at a7. */
  lemma ExceptionCodeIgnoresA7(code: Word, a7: Word, a7': Word)
    requires code != EXCEPTION_ECALL_FROM_USER
    ensures HandleExceptionCode(code, a7) == HandleExceptionCode(code, a7')
  {
  }

  /** The new mie value `init_exception_handling` computes: the machine
      timer (bit 7) and machine external (bit 11) sources enabled, every
      other bit kept. */
  function EnableMachineSources(mie: Word): (r: Word)
    ensures r & 0x880 == 0x880
    ensures r & !0x880 == mie & !0x880
  {
    mie | (1 << 7) | (1 << 11)
  }

  /** `init_exception_handling`: installs the trap vector, enables the
      machine timer and external interrupt sources in mie and sets the global
      interrupt enable, bit 3 of mstatus. */
  method InitExceptionHandling(hart: Hart, handler: Word)
    modifies hart
    ensures hart.csrs == old(hart.csrs).(mtvec := handler,
                                         mie := EnableMachineSources(old(hart.csrs.mie)),
                                         mstatus := WithMie(old(hart.csrs.mstatus), true))
  {
    hart.csrs := WriteCsr(hart.csrs, CSR_MTVEC, handler);
    var mie := ReadCsr(hart.csrs, CSR_MIE);
    hart.csrs := WriteCsr(hart.csrs, CSR_MIE,
                          mie | (1 << INTERRUPT_MACHINE_TIMER) | (1 << INTERRUPT_MACHINE_EXTERNAL));
    hart.csrs := WriteMieGlobal(hart.csrs, true);
  }
}
