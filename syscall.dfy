/** The system-call dispatcher (src/kernel/syscall.rs).

    A handler counts every call and dispatches on the call number; fork and
    exit act on the process table and the allocator, which are passed in
    where the source reaches for its global scheduler.  The register
    arguments the source reads with inline assembly are a `SyscallArgs`
    value, the bytes `write` sends to the console are not modelled, and the
    `i32` that `waitpid` stores through its status pointer is the cell
    `status[0]`. */
module Syscall {
  import opened Wrappers
  import opened Memory
  import opened Process

  const SYS_WRITE: nat := 64
  const SYS_EXIT: nat := 93
  const SYS_GETPID: nat := 172
  const SYS_FORK: nat := 220
  const SYS_EXECVE: nat := 221
  const SYS_WAITPID: nat := 260

  /** The value every failing call returns. */
  const SYSCALL_ERROR: nat := 0xFFFFFFFF
  /** The stack size of a forked process. */
  const FORK_STACK_SIZE: nat := 4096

  /** The call number (register a7) and the six arguments (a0-a5). */
  datatype SyscallArgs = SyscallArgs(syscallNum: nat, arg0: nat, arg1: nat, arg2: nat,
                                     arg3: nat, arg4: nat, arg5: nat)

  /** `handle_write`: the byte count for stdout and stderr, the error value
      for any other descriptor. */
  function WriteResult(fd: nat, count: nat): (r: nat)
    ensures r == count <== fd == 1 || fd == 2
    ensures r == SYSCALL_ERROR <== fd != 1 && fd != 2
  {
    if fd == 1 || fd == 2 then count else SYSCALL_ERROR
  }

  /** The number `handle_fork` returns for the outcome of `create_process`. */
  function ForkResult(pid: Option<nat>): (r: nat)
    ensures pid.Some? ==> r == pid.value
    ensures pid.None? ==> r == SYSCALL_ERROR
  {
    match pid
    case Some(p) => p
    case None => SYSCALL_ERROR
  }

  /** `handle_syscall` on the process table and heap: the table and heap
      afterwards and the value returned.  Only fork and exit touch the
      table; only fork touches the heap. */
  function SyscallStep(args: SyscallArgs, s: SchedState, h: Heap): (r: (SchedState, Heap, nat))
    ensures args.syscallNum != SYS_FORK && args.syscallNum != SYS_EXIT ==> r.0 == s && r.1 == h
    ensures args.syscallNum == SYS_EXIT ==> r.0 == TerminateStep(s, 0).0 && r.1 == h && r.2 == 0
    ensures args.syscallNum == SYS_FORK ==>
              var (s', h', pid) := CreateStep(s, h, FORK_STACK_SIZE);
              r == (s', h', ForkResult(pid))
    ensures args.syscallNum == SYS_WRITE ==> r.2 == WriteResult(args.arg0, args.arg2)
    ensures args.syscallNum == SYS_GETPID ==> r.2 == 1
    ensures args.syscallNum == SYS_EXECVE ==> r.2 == SYSCALL_ERROR
    ensures args.syscallNum == SYS_WAITPID ==> r.2 == args.arg0
    ensures !IsKnownSyscall(args.syscallNum) ==> r.2 == SYSCALL_ERROR
  {
    if args.syscallNum == SYS_WRITE then (s, h, WriteResult(args.arg0, args.arg2))
    else if args.syscallNum == SYS_EXIT then (TerminateStep(s, 0).0, h, 0)
    else if args.syscallNum == SYS_GETPID then (s, h, 1)
    else if args.syscallNum == SYS_FORK then
      var (s', h', pid) := CreateStep(s, h, FORK_STACK_SIZE);
      (s', h', ForkResult(pid))
    else if args.syscallNum == SYS_EXECVE then (s, h, SYSCALL_ERROR)
    else if args.syscallNum == SYS_WAITPID then (s, h, args.arg0)
    else (s, h, SYSCALL_ERROR)
  }

  /** The six numbers the dispatcher names. */
  predicate IsKnownSyscall(n: nat) {
    n == SYS_WRITE || n == SYS_EXIT || n == SYS_GETPID ||
    n == SYS_FORK || n == SYS_EXECVE || n == SYS_WAITPID
  }

  /** Whether the call stores 0 through the status pointer: `waitpid` with a
      non-null pointer. */
  predicate StoresStatus(args: SyscallArgs) {
    args.syscallNum == SYS_WAITPID && args.arg1 != 0
  }

  /** Exit asks for pid 0, which no process has, so on a valid table it
      changes nothing at all. */
  lemma ExitChangesNothing(args: SyscallArgs, s: SchedState, h: Heap)
    requires Valid(s) && args.syscallNum == SYS_EXIT
    ensures SyscallStep(args, s, h) == (s, h, 0)
  {
    TerminatePidZeroIsNoop(s);
  }

  /** Every call keeps the process table's invariant and the heap's. */
  lemma SyscallPreservesInvariants(args: SyscallArgs, s: SchedState, h: Heap)
    requires Valid(s) && HeapValid(h)
    ensures Valid(SyscallStep(args, s, h).0) && HeapValid(SyscallStep(args, s, h).1)
  {
    if args.syscallNum == SYS_FORK {
      CreatePreservesValid(s, h, FORK_STACK_SIZE);
    } else if args.syscallNum == SYS_EXIT {
      TerminatePreservesValid(s, 0);
    }
  }

  /** Fork either fails with the error value and changes no process, or
      returns a pid no live process had and puts a Ready process with that
      pid, on a fresh 4096-byte stack, into the table. */
  lemma ForkReturnsFreshPid(args: SyscallArgs, s: SchedState, h: Heap)
    requires Valid(s) && args.syscallNum == SYS_FORK
    ensures var (s', h', r) := SyscallStep(args, s, h);
            (s' == s && r == SYSCALL_ERROR) ||
            (r == s.nextPid && s'.nextPid == s.nextPid + 1 &&
             (forall i :: 0 <= i < SLOTS && s.procs[i].Some? ==> s.procs[i].value.pid != r) &&
             exists i :: 0 <= i < SLOTS && s'.procs[i] == Some(Process(r, Ready, h.nextFree + FORK_STACK_SIZE, 0,
                                                                       h.nextFree, FORK_STACK_SIZE)))
  {
    var (s', h', pid) := CreateStep(s, h, FORK_STACK_SIZE);
    CreatedPidIsFresh(s, h, FORK_STACK_SIZE);
    if pid.Some? {
      var i := FirstEmptyFrom(s.procs, 0).value;
      assert s'.procs[i] == Spawn(h, s.nextPid, FORK_STACK_SIZE).1;
    }
  }

  /** The arguments `sys_write` builds: the unused ones are zero. */
  function SysWriteArgs(fd: nat, buf: nat, count: nat): (args: SyscallArgs)
    ensures args.syscallNum == SYS_WRITE && args.arg0 == fd && args.arg1 == buf && args.arg2 == count
    ensures args.arg3 == 0 && args.arg4 == 0 && args.arg5 == 0
  {
    SyscallArgs(SYS_WRITE, fd, buf, count, 0, 0, 0)
  }

  /** The arguments `sys_exit` builds. */
  function SysExitArgs(exitCode: nat): (args: SyscallArgs)
    ensures args.syscallNum == SYS_EXIT && args.arg0 == exitCode
    ensures args.arg1 == 0 && args.arg2 == 0 && args.arg3 == 0 && args.arg4 == 0 && args.arg5 == 0
  {
    SyscallArgs(SYS_EXIT, exitCode, 0, 0, 0, 0, 0)
  }

  /** The arguments `sys_getpid` builds. */
  function SysGetpidArgs(): (args: SyscallArgs)
    ensures args.syscallNum == SYS_GETPID
    ensures args.arg0 == 0 && args.arg1 == 0 && args.arg2 == 0 && args.arg3 == 0 && args.arg4 == 0 && args.arg5 == 0
  {
    SyscallArgs(SYS_GETPID, 0, 0, 0, 0, 0, 0)
  }

  /** The three wrappers' results: write echoes the count on stdout and
      stderr, exit returns 0 and getpid 1, none of them touching the process
      table when it is valid. */
  lemma WrapperResults(fd: nat, buf: nat, count: nat, exitCode: nat, s: SchedState, h: Heap)
    requires Valid(s)
    ensures SyscallStep(SysWriteArgs(fd, buf, count), s, h) ==
            (s, h, if fd == 1 || fd == 2 then count else SYSCALL_ERROR)
    ensures SyscallStep(SysExitArgs(exitCode), s, h) == (s, h, 0)
    ensures SyscallStep(SysGetpidArgs(), s, h) == (s, h, 1)
  {
    ExitChangesNothing(SysExitArgs(exitCode), s, h);
  }

  /** The dispatcher and its call counter. */
  class SyscallHandler {
    var syscallCount: nat

    /** `SyscallHandler::new`. */
    constructor ()
      ensures syscallCount == 0
    {
      syscallCount := 0;
    }

    /** `handle_syscall`: counts the call, then runs the arm for its number. */
    method HandleSyscall(args: SyscallArgs, sched: Scheduler, alloc: Allocator, status: array<int>)
      returns (r: nat)
      requires sched.processes.Length == SLOTS && alloc.Valid() && status.Length == 1
      modifies this, sched, sched.processes, alloc, status
      ensures syscallCount == old(syscallCount) + 1
      ensures alloc.Valid()
      ensures (sched.State(), alloc.State(), r) == SyscallStep(args, old(sched.State()), old(alloc.State()))
      ensures status[0] == if StoresStatus(args) then 0 else old(status[0])
    {
      syscallCount := syscallCount + 1;
      if args.syscallNum == SYS_WRITE {
        r := HandleWrite(args);
      } else if args.syscallNum == SYS_EXIT {
        r := HandleExit(args, sched);
      } else if args.syscallNum == SYS_GETPID {
        r := 1;
      } else if args.syscallNum == SYS_FORK {
        r := HandleFork(sched, alloc);
      } else if args.syscallNum == SYS_EXECVE {
        r := SYSCALL_ERROR;
      } else if args.syscallNum == SYS_WAITPID {
        r := HandleWaitpid(args, status);
      } else {
        r := SYSCALL_ERROR;
      }
    }

    /** `handle_write`. */
    method HandleWrite(args: SyscallArgs) returns (r: nat)
      ensures r == WriteResult(args.arg0, args.arg2)
    {
      var fd := args.arg0;
      var count := args.arg2;
      if fd == 1 || fd == 2 {
        r := count;
      } else {
        r := SYSCALL_ERROR;
      }
    }

    /** `handle_exit`: terminates pid 0 and returns 0. */
    method HandleExit(args: SyscallArgs, sched: Scheduler) returns (r: nat)
      requires sched.processes.Length == SLOTS
      modifies sched, sched.processes
      ensures sched.State() == TerminateStep(old(sched.State()), 0).0 && r == 0
    {
      var _ := sched.TerminateProcess(0);
      r := 0;
    }

    /** `handle_fork`: a new process with a 4096-byte stack. */
    method HandleFork(sched: Scheduler, alloc: Allocator) returns (r: nat)
      requires sched.processes.Length == SLOTS && alloc.Valid()
      modifies sched, sched.processes, alloc
      ensures alloc.Valid()
      ensures var (s', h', pid) := CreateStep(old(sched.State()), old(alloc.State()), FORK_STACK_SIZE);
              sched.State() == s' && alloc.State() == h' && r == ForkResult(pid)
    {
      var pid := sched.CreateProcess(FORK_STACK_SIZE, alloc);
      if pid.Some? {
        r := pid.value;
      } else {
        r := SYSCALL_ERROR;
      }
    }

    /** `handle_waitpid`: stores 0 through a non-null status pointer and
        returns the pid asked for. */
    method HandleWaitpid(args: SyscallArgs, status: array<int>) returns (r: nat)
      requires status.Length == 1
      modifies status
      ensures status[0] == if args.arg1 != 0 then 0 else old(status[0])
      ensures r == args.arg0
    {
      if args.arg1 != 0 {
        status[0] := 0;
      }
      r := args.arg0;
    }

    /** `sys_write`. */
    method SysWrite(fd: nat, buf: nat, count: nat, sched: Scheduler, alloc: Allocator, status: array<int>)
      returns (r: nat)
      requires sched.processes.Length == SLOTS && alloc.Valid() && status.Length == 1
      modifies this, sched, sched.processes, alloc, status
      ensures syscallCount == old(syscallCount) + 1
      ensures (sched.State(), alloc.State(), r) ==
              SyscallStep(SysWriteArgs(fd, buf, count), old(sched.State()), old(alloc.State()))
      ensures status[0] == old(status[0])
    {
      r := HandleSyscall(SysWriteArgs(fd, buf, count), sched, alloc, status);
    }

    /** `sys_exit`. */
    method SysExit(exitCode: nat, sched: Scheduler, alloc: Allocator, status: array<int>)
      returns (r: nat)
      requires sched.processes.Length == SLOTS && alloc.Valid() && status.Length == 1
      modifies this, sched, sched.processes, alloc, status
      ensures syscallCount == old(syscallCount) + 1
      ensures (sched.State(), alloc.State(), r) ==
              SyscallStep(SysExitArgs(exitCode), old(sched.State()), old(alloc.State()))
      ensures status[0] == old(status[0])
    {
      r := HandleSyscall(SysExitArgs(exitCode), sched, alloc, status);
    }

    /** `sys_getpid`. */
    method SysGetpid(sched: Scheduler, alloc: Allocator, status: array<int>) returns (r: nat)
      requires sched.processes.Length == SLOTS && alloc.Valid() && status.Length == 1
      modifies this, sched, sched.processes, alloc, status
      ensures syscallCount == old(syscallCount) + 1
      ensures (sched.State(), alloc.State(), r) ==
              SyscallStep(SysGetpidArgs(), old(sched.State()), old(alloc.State()))
      ensures status[0] == old(status[0])
    {
      r := HandleSyscall(SysGetpidArgs(), sched, alloc, status);
    }
  }
}
