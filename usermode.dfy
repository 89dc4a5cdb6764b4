/** User-mode programs and the switch between user and kernel privilege
    (src/kernel/usermode.rs).

    Entering user mode records a fresh register context, sets the MPP field
    of mstatus to User, points mepc at the program and enables the user
    software and user timer interrupt sources (mie bits 0 and 4); returning
    to the kernel drops the context, sets MPP to Machine and disables those
    two sources again.  The CSR file is the `Hart` of the Riscv module; the
    syscall number the source reads from register a7 is a parameter. */
module UserMode {
  import opened Wrappers
  import opened Riscv

  const REGISTER_COUNT: nat := 32
  const PROGRAM_SLOTS: nat := 8
  /** The stack pointer every user context starts with. */
  const USER_STACK_TOP: Word := 0x10000000
  /** mie bits 0 (user software) and 4 (user timer). */
  const USER_INTERRUPTS: Word := 0x11

  /** The register file `UserContext::new` builds: all zero but the stack
      pointer. */
  function InitialRegisters(sp: Word): (regs: seq<Word>)
    ensures |regs| == REGISTER_COUNT
    ensures regs[REG_SP] == sp
    ensures forall i :: 0 <= i < REGISTER_COUNT && i != REG_SP ==> regs[i] == 0
  {
    seq(REGISTER_COUNT, i => if i == REG_SP then sp else 0)
  }

  /** The saved register state of a user program. */
  class UserContext {
    const regs: array<Word>
    var pc: Word
    var sp: Word

    /** `UserContext::new`. */
    constructor (pc: Word, sp: Word)
      ensures fresh(regs) && regs[..] == InitialRegisters(sp)
      ensures this.pc == pc && this.sp == sp
    {
      regs := new Word[REGISTER_COUNT](i => if i == REG_SP then sp else 0);
      this.pc := pc;
      this.sp := sp;
    }

    /** `set_register`: a register number outside 0-31 is ignored. */
    method SetRegister(reg: nat, value: Word)
      requires regs.Length == REGISTER_COUNT
      modifies regs
      ensures regs[..] == if reg < REGISTER_COUNT then old(regs[..])[reg := value] else old(regs[..])
      ensures reg < REGISTER_COUNT ==> GetRegister(reg) == value
    {
      if reg < REGISTER_COUNT {
        regs[reg] := value;
      }
    }

    /** `get_register`: a register number outside 0-31 reads as 0. */
    function GetRegister(reg: nat): (v: Word)
      requires regs.Length == REGISTER_COUNT
      reads regs
      ensures reg >= REGISTER_COUNT ==> v == 0
      ensures reg < REGISTER_COUNT ==> v == regs[reg]
    {
      if reg < REGISTER_COUNT then regs[reg] else 0
    }
  }

  /** An entry of the program catalogue. */
  datatype UserProgram = UserProgram(name: string, entryPoint: Word, stackSize: nat)

  /** `create_context`: a fresh context starting at the program's entry point
      with the fixed user stack. */
  method CreateContext(program: UserProgram) returns (ctx: UserContext)
    ensures fresh(ctx) && fresh(ctx.regs)
    ensures ctx.pc == program.entryPoint && ctx.sp == USER_STACK_TOP
    ensures ctx.regs[..] == InitialRegisters(USER_STACK_TOP)
  {
    ctx := new UserContext(program.entryPoint, USER_STACK_TOP);
  }

  /** mie with the user software and user timer sources enabled, every other
      bit kept. */
  function WithUserInterrupts(mie: Word): (r: Word)
    ensures r & 0x11 == 0x11
    ensures r & !0x11 == mie & !0x11
  {
    mie | (1 << 0) | (1 << 4)
  }

  /** mie with the user software and user timer sources disabled, every
      other bit kept. */
  function WithoutUserInterrupts(mie: Word): (r: Word)
    ensures r & 0x11 == 0
    ensures r & !0x11 == mie & !0x11
  {
    mie & !((1 << 0) | (1 << 4))
  }

  /** The CSR writes of `switch_to_user`: MPP = User, mepc = the entry
      point, user interrupt sources enabled; every other bit of mstatus and
      mie, and every other CSR, is kept. */
  function EnterUser(c: Csrs, entry: Word): (r: Csrs)
    ensures ReadMpp(r) == PRIVILEGE_USER
    ensures r == c.(mstatus := WithMpp(c.mstatus, PRIVILEGE_USER), mepc := entry,
                    mie := WithUserInterrupts(c.mie))
  {
    var c1 := WriteMpp(c, PRIVILEGE_USER);
    var c2 := WriteCsr(c1, CSR_MEPC, entry);
    WriteCsr(c2, CSR_MIE, WithUserInterrupts(ReadCsr(c2, CSR_MIE)))
  }

  /** The CSR writes of `return_to_kernel`: MPP = Machine and the user
      interrupt sources disabled; every other bit of mstatus and mie, and
      every other CSR, is kept. */
  function LeaveUser(c: Csrs): (r: Csrs)
    ensures ReadMpp(r) == PRIVILEGE_MACHINE
    ensures r == c.(mstatus := WithMpp(c.mstatus, PRIVILEGE_MACHINE),
                    mie := WithoutUserInterrupts(c.mie))
  {
    var c1 := WriteMpp(c, PRIVILEGE_MACHINE);
    WriteCsr(c1, CSR_MIE, WithoutUserInterrupts(ReadCsr(c1, CSR_MIE)))
  }

  /** A second MPP write overrides the first. */
  lemma WithMppOverrides(mstatus: Word, first: Word, second: Word)
    ensures WithMpp(WithMpp(mstatus, first), second) == WithMpp(mstatus, second)
  {
  }

  /** Disabling the user interrupt sources undoes any earlier enabling. */
  lemma WithoutUserInterruptsOverrides(mie: Word)
    ensures WithoutUserInterrupts(WithUserInterrupts(mie)) == WithoutUserInterrupts(mie)
    ensures WithoutUserInterrupts(WithoutUserInterrupts(mie)) == WithoutUserInterrupts(mie)
  {
  }

  /** Returning to the kernel twice is the same as returning once. */
  lemma LeaveUserIdempotent(c: Csrs)
    ensures LeaveUser(LeaveUser(c)) == LeaveUser(c)
  {
    WithMppOverrides(c.mstatus, PRIVILEGE_MACHINE, PRIVILEGE_MACHINE);
    WithoutUserInterruptsOverrides(c.mie);
  }

  /** A switch to user mode followed by a return to the kernel leaves the
      CSRs as a plain return would, except that mepc holds the program's
      entry point. */
  lemma EnterThenLeave(c: Csrs, entry: Word)
    ensures LeaveUser(EnterUser(c, entry)) == LeaveUser(c).(mepc := entry)
  {
    WithMppOverrides(c.mstatus, PRIVILEGE_USER, PRIVILEGE_MACHINE);
    WithoutUserInterruptsOverrides(c.mie);
  }

  /** Whether `handle_user_exception` ends in `return_to_kernel`: every code
      but the user environment call does, and the environment call does for
      the exit syscall only. */
  function ReturnsToKernel(code: Word, a7: Word): (b: bool)
    ensures b <==> !(code == EXCEPTION_ECALL_FROM_USER && a7 != SYS_EXIT)
  {
    if code == EXCEPTION_ECALL_FROM_USER then SyscallReturnsToKernel(a7)
    else if code == EXCEPTION_ILLEGAL_INSTRUCTION then true
    else if code == EXCEPTION_LOAD_ACCESS_FAULT then true
    else if code == EXCEPTION_STORE_ACCESS_FAULT then true
    else true
  }

  /** Whether `handle_user_syscall` returns to the kernel: only for exit. */
  function SyscallReturnsToKernel(a7: Word): (b: bool)
    ensures b <==> a7 == SYS_EXIT
  {
    if a7 == SYS_WRITE then false
    else if a7 == SYS_EXIT then true
    else false
  }

  /** The catalogue `init` registers. */
  function Hello(): UserProgram {
    UserProgram("hello", 0x1000000, 4096)
  }

  function Test(): UserProgram {
    UserProgram("test", 0x1001000, 4096)
  }

  /** The user-mode manager: the running program's context, if any, and an
      eight-slot program catalogue. */
  class UserModeManager {
    var currentUserContext: Option<UserContext>
    const userPrograms: array<Option<UserProgram>>

    /** A context is held exactly while MPP says the trap returns to user
        mode. */
    ghost predicate Agrees(hart: Hart)
      reads this, hart
    {
      currentUserContext.Some? <==> ReadMpp(hart.csrs) == PRIVILEGE_USER
    }

    /** `UserModeManager::new`. */
    constructor ()
      ensures currentUserContext == None && fresh(userPrograms)
      ensures userPrograms[..] == seq(PROGRAM_SLOTS, _ => None)
    {
      currentUserContext := None;
      userPrograms := new Option<UserProgram>[PROGRAM_SLOTS](_ => None);
    }

    /** `init`: "hello" in slot 0 and "test" in slot 1; the other slots are
        untouched. */
    method Init()
      requires userPrograms.Length == PROGRAM_SLOTS
      modifies userPrograms
      ensures userPrograms[..] == old(userPrograms[..])[0 := Some(Hello())][1 := Some(Test())]
    {
      userPrograms[0] := Some(Hello());
      userPrograms[1] := Some(Test());
    }

    /** `switch_to_user`: on a registered slot, a fresh context for the
        program becomes current and the CSRs are set up for the return to
        user mode; on an empty slot nothing changes. */
    method SwitchToUser(programIndex: nat, hart: Hart) returns (ok: bool)
      requires programIndex < userPrograms.Length
      modifies this, hart
      ensures ok <==> userPrograms[programIndex].Some?
      ensures !ok ==> currentUserContext == old(currentUserContext) && hart.csrs == old(hart.csrs)
      ensures ok ==> var program := userPrograms[programIndex].value;
                     currentUserContext.Some? && fresh(currentUserContext.value) &&
                     currentUserContext.value.pc == program.entryPoint &&
                     currentUserContext.value.sp == USER_STACK_TOP &&
                     currentUserContext.value.regs[..] == InitialRegisters(USER_STACK_TOP) &&
                     hart.csrs == EnterUser(old(hart.csrs), program.entryPoint)
      ensures old(Agrees(hart)) ==> Agrees(hart)
    {
      var slot := userPrograms[programIndex];
      if slot.Some? {
        var program := slot.value;
        var context := CreateContext(program);
        currentUserContext := Some(context);
        hart.csrs := WriteMpp(hart.csrs, PRIVILEGE_USER);
        hart.csrs := WriteCsr(hart.csrs, CSR_MEPC, program.entryPoint);
        var mie := ReadCsr(hart.csrs, CSR_MIE);
        hart.csrs := WriteCsr(hart.csrs, CSR_MIE, WithUserInterrupts(mie));
        ok := true;
      } else {
        ok := false;
      }
    }

    /** `return_to_kernel`. */
    method ReturnToKernel(hart: Hart)
      modifies this, hart
      ensures currentUserContext == None
      ensures hart.csrs == LeaveUser(old(hart.csrs))
      ensures Agrees(hart)
    {
      currentUserContext := None;
      hart.csrs := WriteMpp(hart.csrs, PRIVILEGE_MACHINE);
      var mie := ReadCsr(hart.csrs, CSR_MIE);
      hart.csrs := WriteCsr(hart.csrs, CSR_MIE, WithoutUserInterrupts(mie));
    }

    /** `handle_user_exception`: returns to the kernel unless the trap is a
        user environment call for some syscall other than exit. */
    method HandleUserException(exceptionCode: Word, mepc: Word, mtval: Word, a7: Word, hart: Hart)
      modifies this, hart
      ensures ReturnsToKernel(exceptionCode, a7) ==>
                currentUserContext == None && hart.csrs == LeaveUser(old(hart.csrs))
      ensures !ReturnsToKernel(exceptionCode, a7) ==>
                currentUserContext == old(currentUserContext) && hart.csrs == old(hart.csrs)
      ensures old(Agrees(hart)) ==> Agrees(hart)
    {
      if exceptionCode == EXCEPTION_ECALL_FROM_USER {
        HandleUserSyscall(mepc, a7, hart);
      } else if exceptionCode == EXCEPTION_ILLEGAL_INSTRUCTION {
        ReturnToKernel(hart);
      } else if exceptionCode == EXCEPTION_LOAD_ACCESS_FAULT {
        ReturnToKernel(hart);
      } else if exceptionCode == EXCEPTION_STORE_ACCESS_FAULT {
        ReturnToKernel(hart);
      } else {
        ReturnToKernel(hart);
      }
    }

    /** `handle_user_syscall`: exit returns to the kernel; write and unknown
        numbers change nothing. */
    method HandleUserSyscall(mepc: Word, a7: Word, hart: Hart)
      modifies this, hart
      ensures SyscallReturnsToKernel(a7) ==>
                currentUserContext == None && hart.csrs == LeaveUser(old(hart.csrs))
      ensures !SyscallReturnsToKernel(a7) ==>
                currentUserContext == old(currentUserContext) && hart.csrs == old(hart.csrs)
    {
      if a7 == SYS_WRITE {
      } else if a7 == SYS_EXIT {
        ReturnToKernel(hart);
      }
    }
  }
}
