# A verified model of a teaching RISC-V kernel

This project models the core of a small RV64 teaching kernel written in Rust and
proves properties of that model in Dafny. The kernel runs in machine mode. It
covers the following:

- the machine-mode CSR file and its `mstatus` bit fields;
- a trap classifier;
- user/kernel privilege switching;
- a 16-slot process table with a round-robin scheduler;
- a bump allocator and its byte helpers;
- a flat 512-entry page table;
- a system-call dispatcher;
- a block-device driver;
- a FAT16 boot-sector parser with file handles;
- a shell command parser and C-style string helpers.

There is one module per source file:

| module | file | form |
|---|---|---|
| `Riscv` | `riscv.dfy` | CSR record `Csrs`, pure read/write functions, a `Hart` class holding the record |
| `Exception` | `exception.dfy` | pure trap classification; `InitExceptionHandling` updates a `Hart` |
| `UserMode` | `usermode.dfy` | `UserContext` (register array), `UserModeManager` (context + 8-slot catalogue) |
| `Process` | `process.dfy` | `Scheduler` class over a 16-slot array, proved against functions on `SchedState` |
| `Memory` | `memory.dfy` | `Allocator` class proved against `AllocateFrom` on a `Heap` value; byte-array helpers |
| `Paging` | `paging.dfy` | PTE bit functions, `PageTable` class over a 512-entry array, range loops |
| `Syscall` | `syscall.dfy` | `SyscallHandler` class proved against `SyscallStep` |
| `Disk` | `disk.dfy` | `DiskDriver` class proved against `ReadBlockStep` / `WriteBlockStep` |
| `Fat` | `fat.dfy` | `FatFileSystem` and `FileHandle` classes, boot-sector and lookup functions |
| `Shell` | `shell.dfy` | `Parse` over `str::trim`, `Shell` class with the `running` flag |
| `Strings` | `strings.dfy` | `Strlen`, `Strcmp` and the `Strcpy` loop over byte arrays |

Register-sized values are `bv64` (`Riscv.Word`): CSRs, PTEs, `mcause` and the
syscall number. Counts, pids, sizes and addresses in the allocator, the
scheduler and the system-call arguments are unbounded `nat`. Disk and FAT bytes
use the newtype `Disk.byte`.

The source keeps its scheduler, allocator, user-mode manager and file system
in `static mut` globals. The CSRs are reached through inline assembly. In this
model, each of them is an object passed explicitly to the operation that uses
it. Console output is ignored.

Every state-changing method is proved against a function of the old state. For
example, `Scheduler.Schedule` ensures `(State(), pid) == ScheduleStep(old(State()))`.
The properties the source promises are then lemmas about those functions.

Four behaviours of the source are reproduced as written and shown by lemmas:

- **Scheduler starvation.** `schedule` starts scanning at `current_pid % 16 + 1`, a slot index computed from a pid. With pids 1, 2 and 3 in slots 0 to 2 it runs 1, 3, 1, 3, … and pid 2 never runs (`ScheduleStarvesMiddlePid`).
- **Lost address bits.** Page-table entries keep the physical address from bit 20 upward and `set_flags` clears bits 12-19, so those bits of a mapped address are lost (`MapThenTranslateEntry`). Section 4.3.1 of the RISC-V Privileged Architecture keeps the PPN from bit 10.
- **Padded file names.** `open_file` compares the whole 8-byte padded name, so `"HELLO"` is never found (`UnpaddedHelloNotFound`).
- **`exit` terminates nothing.** `handle_exit` terminates pid 0, which no process ever has (`ExitChangesNothing`).

## Model

| member | source | states |
|---|---|---|
| Riscv.ReadCsr | src/arch/riscv.rs:43-56 | each of the seven decoded CSR numbers reads its register; every other number reads 0 |
| Riscv.WriteCsr | src/arch/riscv.rs:59-67 | only mstatus, mepc, mie and mtvec are written; any other number, mcause, mtval and mip included, leaves the record unchanged |
| Riscv.WriteThenReadCsr | src/arch/riscv.rs:43-67 | a written CSR reads back the value written if writable, its old value otherwise; every other CSR reads as before |
| Riscv.MppOf | src/arch/riscv.rs:133-135 | the MPP field is `(mstatus & MSTATUS_MPP) >> 11`, at most 3 |
| Riscv.WithMpp | src/arch/riscv.rs:138-142 | the new mstatus has bits 12:11 equal to `value & 3` and every other bit kept |
| Riscv.ReadMpp | src/arch/riscv.rs:133-135 | `read_mpp` is the MPP field of mstatus, at most 3 |
| Riscv.WriteMpp | src/arch/riscv.rs:138-142 | afterwards `read_mpp` gives `value & 3`; every other mstatus bit and every other CSR is kept |
| Riscv.MpieOf | src/arch/riscv.rs:146-148 | true iff bit 7 of mstatus is set |
| Riscv.WithMpie | src/arch/riscv.rs:151-159 | bit 7 equals `value`, every other bit kept |
| Riscv.ReadMpie | src/arch/riscv.rs:146-148 | `read_mpie` is bit 7 of mstatus |
| Riscv.WriteMpie | src/arch/riscv.rs:151-159 | afterwards `read_mpie` gives `value`; only bit 7 of mstatus changes |
| Riscv.MieOf | src/arch/riscv.rs:163-165 | true iff bit 3 of mstatus is set |
| Riscv.WithMie | src/arch/riscv.rs:168-176 | bit 3 equals `value`, every other bit kept |
| Riscv.ReadMieGlobal | src/arch/riscv.rs:163-165 | `read_mie_global` is bit 3 of mstatus |
| Riscv.WriteMieGlobal | src/arch/riscv.rs:168-176 | afterwards `read_mie_global` gives `value`; only bit 3 of mstatus changes |
| Riscv.PrivilegeLevelsFitMpp | src/arch/riscv.rs:9-11 | User, Supervisor and Machine each read back from MPP unchanged after being written |
| Riscv.Hart.constructor | src/arch/riscv.rs:43-67 | the hart starts with the given CSR values |
| Exception.HandleInterrupt | src/kernel/exception.rs:28-43 | code 7 is the timer, code 11 external, every other code unknown with that code |
| Exception.HandleSyscall | src/kernel/exception.rs:97-118 | 64 is write, 93 is exit, every other number unknown with that number |
| Exception.HandleExceptionCode | src/kernel/exception.rs:46-94 | the user environment call (8) is the only arm that decodes a7; codes 10 and above 11 are unknown |
| Exception.IsInterruptCause | src/kernel/exception.rs:16 | a trap is an interrupt iff bit 63 of mcause is set |
| Exception.InterruptCode | src/kernel/exception.rs:18 | the interrupt code is mcause modulo 2^31: bits 31-63 are dropped |
| Exception.HandleException | src/kernel/exception.rs:10-25 | interrupt iff bit 63 set, with the masked code; otherwise an exception whose code is mcause unchanged, with mepc and mtval |
| Exception.ExceptionClassificationRoundTrip | src/kernel/exception.rs:46-94 | reading back the code of a classified exception gives the code: no two codes share a report |
| Exception.InterruptClassificationRoundTrip | src/kernel/exception.rs:28-43 | reading back the code of a classified interrupt gives the code |
| Exception.StandardEncodingClassified | src/kernel/exception.rs:10-25 | an mcause in the standard encoding, with a code below 2^31, is classified by that code |
| Exception.InterruptHighBitsIgnored | src/kernel/exception.rs:18 | an interrupt cause with bit 31 set besides code 7 is still the machine timer |
| Exception.OnlyUserEcallDecodesSyscall | src/kernel/exception.rs:74-77 | for any mcause other than 8, the classification does not depend on a7 |
| Exception.ExceptionCodeIgnoresA7 | src/kernel/exception.rs:49-88 | every exception code except 8 is classified without a7 |
| Exception.EnableMachineSources | src/kernel/exception.rs:127 | mie bits 7 and 11 are set, every other bit kept |
| Exception.InitExceptionHandling | src/kernel/exception.rs:121-131 | mtvec becomes the handler, mie gains bits 7 and 11, mstatus gains bit 3; nothing else changes |
| UserMode.InitialRegisters | src/kernel/usermode.rs:17-22 | 32 registers, all zero except register 2 (sp) |
| UserMode.UserContext.constructor | src/kernel/usermode.rs:17-22 | a fresh register file of 32 zeros with sp in register 2, and the given pc and sp |
| UserMode.UserContext.SetRegister | src/kernel/usermode.rs:24-28 | register `reg` becomes `value` if `reg < 32`, otherwise nothing changes; get after set returns the value |
| UserMode.UserContext.GetRegister | src/kernel/usermode.rs:30-36 | register `reg` for `reg < 32`, 0 otherwise |
| UserMode.CreateContext | src/kernel/usermode.rs:56-58 | a fresh context with pc = entry point and sp = 0x10000000 |
| UserMode.WithUserInterrupts | src/kernel/usermode.rs:101-103 | mie bits 0 and 4 set, every other bit kept |
| UserMode.WithoutUserInterrupts | src/kernel/usermode.rs:121-123 | mie bits 0 and 4 cleared, every other bit kept |
| UserMode.EnterUser | src/kernel/usermode.rs:89-106 | MPP = User, mepc = entry, user interrupt sources enabled; all else kept |
| UserMode.LeaveUser | src/kernel/usermode.rs:114-128 | MPP = Machine, user interrupt sources disabled; all else kept |
| UserMode.LeaveUserIdempotent | src/kernel/usermode.rs:114-128 | returning to the kernel twice leaves the CSRs as returning once |
| UserMode.EnterThenLeave | src/kernel/usermode.rs:84-128 | a switch to user mode then a return leaves the CSRs as a plain return, with mepc at the entry point |
| UserMode.ReturnsToKernel | src/kernel/usermode.rs:131-157 | every exception code except 8 returns to the kernel; code 8 only for syscall 93 |
| UserMode.SyscallReturnsToKernel | src/kernel/usermode.rs:160-184 | a user syscall returns to the kernel iff it is exit (93) |
| UserMode.UserModeManager.constructor | src/kernel/usermode.rs:68-73 | no current context, eight empty program slots |
| UserMode.UserModeManager.Init | src/kernel/usermode.rs:75-81 | "hello" at 0x1000000 in slot 0 and "test" at 0x1001000 in slot 1, stack 4096; other slots untouched |
| UserMode.UserModeManager.SwitchToUser | src/kernel/usermode.rs:84-111 | true iff the slot is registered; then a fresh context at the entry point and the `EnterUser` CSRs; false changes nothing; keeps context present iff MPP = User |
| UserMode.UserModeManager.ReturnToKernel | src/kernel/usermode.rs:114-128 | context dropped, CSRs as `LeaveUser`, so context present iff MPP = User holds |
| UserMode.UserModeManager.HandleUserException | src/kernel/usermode.rs:131-157 | returns to the kernel exactly when `ReturnsToKernel`, otherwise nothing changes; keeps context present iff MPP = User |
| UserMode.UserModeManager.HandleUserSyscall | src/kernel/usermode.rs:160-184 | exit returns to the kernel; write and unknown numbers change nothing |
| Process.Spawn | src/kernel/process.rs:29-42 | a Ready process with the pid, pc 0, stack at the old `next_free` and stack pointer at its top, iff the allocator succeeds |
| Process.NewProcess | src/kernel/process.rs:29-42 | allocator state and result as `Spawn` |
| Process.Destroyed | src/kernel/process.rs:44-50 | the process is Terminated with a null stack; other fields kept |
| Process.FirstEmptyFrom | src/kernel/process.rs:71-72 | the first empty slot at or after `i`, or none when all are full |
| Process.FindPidFrom | src/kernel/process.rs:88-90 | the first slot at or after `i` holding `pid`, or none |
| Process.FindPidUnique | src/kernel/process.rs:88-90 | with distinct pids, the scan finds a pid at the one slot that holds it |
| Process.PickFrom | src/kernel/process.rs:114-117 | the first offset, in circular order from `start`, whose slot holds a Ready process |
| Process.ScheduleStart | src/kernel/process.rs:108-112 | the scan starts at `current % 16 + 1`, or 0 without a current process |
| Process.CreateStep | src/kernel/process.rs:70-84 | fails iff no slot is empty or the stack cannot be allocated, and then nothing changes; on success the first empty slot gets the `Spawn` process, every other slot is kept, the heap is `Spawn`'s, and the result is the old `next_pid`, which grows by one |
| Process.TerminateStep | src/kernel/process.rs:87-103 | true iff the pid is in the table; then exactly the first slot holding it is emptied, every other slot is kept, and `current_pid` is cleared iff it was that pid; otherwise nothing changes |
| Process.ResetCurrent | src/kernel/process.rs:119-128 | only the current process's slot can change, and it becomes Ready; pids are kept |
| Process.ScheduleStep | src/kernel/process.rs:106-140 | nothing picked iff no Ready slot in scan order, and then nothing changes; otherwise the pick becomes current |
| Process.InitialStateValid | src/kernel/process.rs:61-67 | the new scheduler satisfies the table invariant |
| Process.AtMostOneRunning | src/kernel/process.rs:106-140 | under the invariant, two Running slots are the same slot |
| Process.CreatedPidIsFresh | src/kernel/process.rs:70-84 | a created pid belongs to no live process, and `next_pid` never decreases |
| Process.CreatePreservesValid | src/kernel/process.rs:70-84 | create keeps the invariant: pids distinct and below `next_pid`, Running iff current |
| Process.TerminatePreservesValid | src/kernel/process.rs:87-103 | terminate keeps the invariant |
| Process.TerminatePidZeroIsNoop | src/kernel/process.rs:87-103 | pid 0 is never found, so terminating it changes nothing |
| Process.NoneRunningAfterReset | src/kernel/process.rs:119-128 | after the current process is put back no slot is Running |
| Process.SchedulePreservesValid | src/kernel/process.rs:106-140 | schedule keeps the invariant, so at most one process stays Running |
| Process.NoReadyKeepsState | src/kernel/process.rs:114-139 | with no Ready process schedule returns None and changes nothing |
| Process.SchedulePick | src/kernel/process.rs:119-134 | the picked slot becomes Running, the old current becomes Ready, every other slot is untouched |
| Process.PickedAt | src/kernel/process.rs:114-117 | the scan stops at the first Ready offset |
| Process.ThreeReadyFirstPick | src/kernel/process.rs:106-140 | with pids 1-3 Ready and no current process, schedule runs pid 1 |
| Process.ThreeReadyFromPid1 | src/kernel/process.rs:108-112 | with pid 1 current the scan starts at slot 2 and runs pid 3 |
| Process.ThreeReadyFromPid3 | src/kernel/process.rs:108-117 | with pid 3 current the scan starts at slot 4, wraps and runs pid 1 |
| Process.ScheduleStarvesMiddlePid | src/kernel/process.rs:108-112 | four schedules run 1, 3, 1, 3 and return to the same state, so pid 2 never runs |
| Process.CreateTwiceThenSchedule | src/kernel/mod.rs:41-49 | two creates give pids 1 and 2; two schedules then run 1 and 2 |
| Process.Scheduler.constructor | src/kernel/process.rs:61-67 | 16 empty slots, no current pid, `next_pid` 1 |
| Process.Scheduler.CreateProcess | src/kernel/process.rs:70-84 | table, allocator and result as `CreateStep` |
| Process.Scheduler.TerminateProcess | src/kernel/process.rs:87-103 | table and result as `TerminateStep` |
| Process.Scheduler.PutBack | src/kernel/process.rs:119-128 | the table becomes `ResetCurrent` of the old table |
| Process.Scheduler.Schedule | src/kernel/process.rs:106-140 | table, current pid and result as `ScheduleStep` |
| Process.Scheduler.GetProcess | src/kernel/process.rs:143-152 | the process in the first slot holding `pid`, or None iff no slot holds it |
| Process.Scheduler.GetProcessMut | src/kernel/process.rs:155-164 | the first slot holding `pid`, or None iff no slot holds it |
| Memory.AlignedSize | src/kernel/memory.rs:40 | a multiple of 8 with `size <= a < size + 8` |
| Memory.Available | src/kernel/memory.rs:58-60 | `next_free + available == heap_end` |
| Memory.AllocateFrom | src/kernel/memory.rs:38-50 | fails iff the rounded size does not fit, then nothing changes; otherwise returns the old `next_free`, advances by the rounded size and lowers `available` by it; keeps `start <= next_free <= end` |
| Memory.AllocateAll | src/kernel/memory.rs:38-50 | a run of allocations keeps the bounds and never lowers `next_free` |
| Memory.AllocationsDisjointAndIncreasing | src/kernel/memory.rs:38-50 | every block lies in the range handed out, and later blocks lie wholly above earlier ones |
| Memory.AllocatedAddressesAligned | src/kernel/memory.rs:40-49 | from an 8-aligned `next_free` every address handed out is 8-aligned |
| Memory.Allocator.constructor | src/kernel/memory.rs:18-24 | an empty heap at 0 |
| Memory.Allocator.Init | src/kernel/memory.rs:27-35 | the heap is [start, start + size) with `next_free` = start |
| Memory.Allocator.Allocate | src/kernel/memory.rs:38-50 | new state and result as `AllocateFrom` |
| Memory.Allocator.Deallocate | src/kernel/memory.rs:53-55 | nothing changes |
| Memory.Allocator.AvailableBytes | src/kernel/memory.rs:58-60 | `heap_end - next_free` |
| Memory.AllocateString | src/kernel/memory.rs:84-96 | allocates `len + 1` bytes; on success memory there holds the bytes then 0 and everything else is kept; on failure memory is unchanged |
| Memory.Memcpy | src/kernel/memory.rs:99-103 | the first `size` bytes of dst become those of src, the rest are kept |
| Memory.Memset | src/kernel/memory.rs:106-109 | the first `size` bytes become `value`, the rest are kept |
| Paging.IsValid | src/kernel/paging.rs:29-31 | bit 0 of the entry |
| Paging.IsReadable | src/kernel/paging.rs:33-35 | bit 1 of the entry |
| Paging.IsWritable | src/kernel/paging.rs:37-39 | bit 2 of the entry |
| Paging.IsExecutable | src/kernel/paging.rs:41-43 | bit 3 of the entry |
| Paging.IsUserAccessible | src/kernel/paging.rs:45-47 | bit 4 of the entry |
| Paging.PhysicalAddress | src/kernel/paging.rs:49-51 | bits 20 and up of the entry, the low 20 bits zero |
| Paging.SetPhysicalAddress | src/kernel/paging.rs:53-55 | keeps bits 0-11, takes bits 20 and up from the address, zeroes bits 12-19 |
| Paging.SetFlags | src/kernel/paging.rs:57-59 | keeps bits 20 and up, writes the flags' low 12 bits, zeroes bits 12-19 |
| Paging.SetValid | src/kernel/paging.rs:61-67 | bit 0 becomes `valid`, every other bit kept |
| Paging.SetReadable | src/kernel/paging.rs:69-75 | bit 1 becomes `readable`, every other bit kept |
| Paging.SetWritable | src/kernel/paging.rs:77-83 | bit 2 becomes `writable`, every other bit kept |
| Paging.SetExecutable | src/kernel/paging.rs:85-91 | bit 3 becomes `executable`, every other bit kept |
| Paging.SetUserAccessible | src/kernel/paging.rs:93-99 | bit 4 becomes `user`, every other bit kept |
| Paging.Vpn | src/kernel/paging.rs:130-134 | the index is always below 512, so the range guards never fire |
| Paging.TranslateEntry | src/kernel/paging.rs:159-174 | a result iff the entry is valid, with the entry's bits 20 and up and the address's page offset |
| Paging.MapThenTranslateEntry | src/kernel/paging.rs:129-142 | a mapped entry translates to `(p & 0xFFFFFFFFFFF00000) \| (v & 0xFFF)`: bits 12-19 of p are lost |
| Paging.UnmapThenTranslateEntry | src/kernel/paging.rs:145-156 | an unmapped entry translates to nothing |
| Paging.Lookup | src/kernel/paging.rs:159-174 | a result iff the entry at the address's index is valid |
| Paging.MapThenLookup | src/kernel/paging.rs:129-174 | after a map, addresses with the mapped index translate to the new address; all others translate as before |
| Paging.UnmapThenLookup | src/kernel/paging.rs:145-174 | after an unmap, addresses with that index translate to nothing; all others translate as before |
| Paging.MapTranslateExample | src/kernel/paging.rs:129-174 | mapping 0x10000000 to 0x20000000 translates 0x10000000 to 0x20000000 |
| Paging.PageTable.constructor | src/kernel/paging.rs:108-118 | a fresh table holding the given entries |
| Paging.PageTable.MapPage | src/kernel/paging.rs:129-142 | returns true; only the entry at the index changes, to the mapped entry |
| Paging.PageTable.UnmapPage | src/kernel/paging.rs:145-156 | returns true; only the V bit of the entry at the index is cleared |
| Paging.PageTable.Translate | src/kernel/paging.rs:159-174 | the lookup of the table's entries |
| Paging.ChunksCoverRange | src/kernel/paging.rs:201-230 | the loops take ceil(size/4096) steps; step i starts 4096·i in and covers min(4096, what is left) |
| Paging.ChunksEndAtRangeEnd | src/kernel/paging.rs:233-257 | the steps add up to `size` and the last ends at vaddr + size |
| Paging.VirtualMemoryManager.constructor | src/kernel/paging.rs:183-187 | no root table |
| Paging.VirtualMemoryManager.Init | src/kernel/paging.rs:189-198 | succeeds iff the allocator supplies 4096 bytes; the root table stays unset |
| Paging.VirtualMemoryManager.MapMemory | src/kernel/paging.rs:201-230 | returns true after the steps `Chunks(vaddr, size)`, each with its physical address `paddr + offset` |
| Paging.VirtualMemoryManager.UnmapMemory | src/kernel/paging.rs:233-257 | returns true after the steps `Chunks(vaddr, size)` |
| Syscall.WriteResult | src/kernel/syscall.rs:116-128 | the count for fd 1 or 2, 0xFFFFFFFF for any other fd |
| Syscall.ForkResult | src/kernel/syscall.rs:153-164 | the created pid, or 0xFFFFFFFF when creation fails |
| Syscall.SyscallStep | src/kernel/syscall.rs:81-102 | per number: fork creates a 4096-byte process, exit terminates pid 0 and returns 0, getpid 1, execve and unknown numbers 0xFFFFFFFF, waitpid its pid; only fork and exit touch the table |
| Syscall.ExitChangesNothing | src/kernel/syscall.rs:132-143 | on a valid table exit changes nothing and returns 0 |
| Syscall.SyscallPreservesInvariants | src/kernel/syscall.rs:81-102 | every call keeps the table invariant and the heap invariant |
| Syscall.ForkReturnsFreshPid | src/kernel/syscall.rs:153-164 | fork either fails with 0xFFFFFFFF and no change, or returns a pid no live process had and adds it Ready on a 4096-byte stack |
| Syscall.SysWriteArgs | src/kernel/syscall.rs:216-227 | call 64 with fd, buffer and count; unused arguments zero |
| Syscall.SysExitArgs | src/kernel/syscall.rs:229-240 | call 93 with the exit code; unused arguments zero |
| Syscall.SysGetpidArgs | src/kernel/syscall.rs:242-253 | call 172 with all arguments zero |
| Syscall.WrapperResults | src/kernel/syscall.rs:216-253 | write echoes the count on stdout and stderr, exit returns 0 and getpid 1, none changing a valid table |
| Syscall.SyscallHandler.constructor | src/kernel/syscall.rs:77-79 | the counter starts at 0 |
| Syscall.SyscallHandler.HandleSyscall | src/kernel/syscall.rs:81-102 | the counter grows by exactly 1; table, heap and result as `SyscallStep`; waitpid with a non-null pointer stores 0 |
| Syscall.SyscallHandler.HandleWrite | src/kernel/syscall.rs:105-129 | `WriteResult` of fd and count |
| Syscall.SyscallHandler.HandleExit | src/kernel/syscall.rs:132-143 | terminates pid 0 and returns 0 |
| Syscall.SyscallHandler.HandleFork | src/kernel/syscall.rs:153-164 | creates a process with a 4096-byte stack and returns `ForkResult` |
| Syscall.SyscallHandler.HandleWaitpid | src/kernel/syscall.rs:181-200 | stores 0 through a non-null status and returns the pid argument |
| Syscall.SyscallHandler.SysWrite | src/kernel/syscall.rs:216-227 | one counted call of `SyscallStep` on the write arguments |
| Syscall.SyscallHandler.SysExit | src/kernel/syscall.rs:229-240 | one counted call of `SyscallStep` on the exit arguments |
| Syscall.SyscallHandler.SysGetpid | src/kernel/syscall.rs:242-253 | one counted call of `SyscallStep` on the getpid arguments |
| Disk.CheckRequest | src/drivers/disk.rs:52-65 | Error when not initialised, else InvalidSector when out of range, else Error on a short buffer, else Success |
| Disk.ReadBlockStep | src/drivers/disk.rs:51-81 | on an error the buffer is unchanged; on success its first 512 bytes are the sector and the rest kept |
| Disk.WriteBlockStep | src/drivers/disk.rs:84-114 | on an error the device is unchanged; on success only the sector changes, to the buffer's first 512 bytes |
| Disk.WriteThenRead | src/drivers/disk.rs:74-107 | a sector read back after a successful write holds the bytes written |
| Disk.WriteKeepsOtherSectors | src/drivers/disk.rs:84-114 | a write leaves every other sector reading as before |
| Disk.DiskDriver.constructor | src/drivers/disk.rs:27-33 | base 0x10001000, no sectors, not initialised |
| Disk.DiskDriver.Init | src/drivers/disk.rs:36-48 | 1024 sectors, initialised, Success |
| Disk.DiskDriver.ReadBlock | src/drivers/disk.rs:51-81 | buffer and result as `ReadBlockStep` |
| Disk.DiskDriver.WriteBlock | src/drivers/disk.rs:84-114 | device and result as `WriteBlockStep` |
| Disk.DiskDriver.GetInfo | src/drivers/disk.rs:117-119 | (sector count, 512) |
| Fat.EmptyFileInfo | src/fs/fat.rs:42-50 | an all-zero entry, which is not in use |
| Fat.IsDirectory | src/fs/fat.rs:52-54 | iff attribute bit 4 (0x10) is set |
| Fat.IsRegularFile | src/fs/fat.rs:56-58 | iff neither bit 4 (0x10) nor bit 3 (0x08) is set |
| Fat.EntryKinds | src/fs/fat.rs:52-58 | no entry is both, and the read-only, hidden, system and archive bits decide neither |
| Fat.LE16 | src/fs/fat.rs:148-160 | a 16-bit number whose low byte is `lo` and high byte `hi` |
| Fat.LE16RoundTrip | src/fs/fat.rs:148-160 | little-endian decoding and encoding are inverse |
| Fat.SignatureBytes | src/fs/fat.rs:148-152 | the signature check passes iff byte 510 is 0x55 and byte 511 is 0xAA |
| Fat.DataSectors | src/fs/fat.rs:161 | total − 1 − fat − 32 when it fits, wrapped modulo 2^64 otherwise |
| Fat.ParseBoot | src/fs/fat.rs:146-169 | nothing iff the signature bytes are wrong; otherwise the geometry from offsets 13, 19 and 22, with 32 root-directory sectors |
| Fat.ParseBootRoundTrip | src/fs/fat.rs:146-169 | parsing a sector built with given fields gives those fields back |
| Fat.SampleDirectory | src/fs/fat.rs:185-211 | entries 0 and 1 become HELLO.TXT and the TEST directory; the rest are kept |
| Fat.AsciiIsUtf8 | src/fs/fat.rs:254-256 | bytes below 0x80 are valid UTF-8 |
| Fat.NameText | src/fs/fat.rs:254-256 | the first 8 name bytes if they are UTF-8, else the empty string |
| Fat.FindEntryFrom | src/fs/fat.rs:252-266 | the first live entry at or after `i` whose name text equals the argument, or none |
| Fat.OnlyPaddedNamesMatch | src/fs/fat.rs:254-260 | a name of neither 8 nor 0 bytes is never found |
| Fat.EmptyNameMatchesMalformedNames | src/fs/fat.rs:254-260 | the empty name matches exactly the live entries whose name is not UTF-8 |
| Fat.UnpaddedHelloNotFound | src/kernel/mod.rs:93 | "HELLO" is not found in the initial directory |
| Fat.PaddedHelloFound | src/fs/fat.rs:249-270 | "HELLO   " is found at entry 0 |
| Fat.PaddedTestFound | src/fs/fat.rs:249-270 | "TEST    " is found at entry 1 |
| Fat.ReadCount | src/fs/fat.rs:273-284 | 0 on a closed handle; otherwise as many bytes as fit in the buffer without passing the end of the file |
| Fat.Filler | src/fs/fat.rs:288-291 | byte i is 'A' + i % 26 |
| Fat.ReadAtEndIsEmpty | src/fs/fat.rs:273-302 | a read at the end of the file delivers nothing, and no read is longer than the file |
| Fat.FileHandle.constructor | src/fs/fat.rs:68-75 | closed, at position 0, on a blank entry |
| Fat.FatFileSystem.constructor | src/fs/fat.rs:92-110 | zeroed tables, blank entries, not initialised |
| Fat.FatFileSystem.Init | src/fs/fat.rs:113-143 | reads sector 0, then parses, loads the FAT and the directory; stops at the first failing stage and sets `initialized` only after all four succeed |
| Fat.FatFileSystem.ParseBootSector | src/fs/fat.rs:146-169 | succeeds iff `ParseBoot` does, then the fields are its geometry; otherwise nothing changes |
| Fat.FatFileSystem.LoadFatTable | src/fs/fat.rs:172-182 | all 1024 entries become 0xFFFF |
| Fat.FatFileSystem.LoadRootDirectory | src/fs/fat.rs:185-211 | the directory becomes `SampleDirectory` of the old one |
| Fat.FatFileSystem.OpenFile | src/fs/fat.rs:249-270 | a handle iff `FindEntry` finds one: fresh, open, at 0, on a copy of that entry |
| Fat.FatFileSystem.ReadFile | src/fs/fat.rs:273-302 | delivers `ReadCount` bytes of `Filler`, keeps the rest of the buffer, advances the position by the count |
| Fat.FatFileSystem.CloseFile | src/fs/fat.rs:305-310 | the handle is closed, its entry and position kept |
| Shell.TrimStart | src/user/shell.rs:20 | drops exactly the leading whitespace: the result is a suffix, the dropped part is whitespace, and the result does not start with whitespace |
| Shell.TrimEnd | src/user/shell.rs:20 | drops exactly the trailing whitespace |
| Shell.Trim | src/user/shell.rs:20 | the result neither starts nor ends with whitespace |
| Shell.TrimStartSkipsPrefix | src/user/shell.rs:20 | leading whitespace does not change `trim_start` |
| Shell.TrimEndSkipsSuffix | src/user/shell.rs:20 | trailing whitespace does not change `trim_end` |
| Shell.TrimStartAppend | src/user/shell.rs:20 | `trim_start` of a concatenation keeps the second part unless the first is all whitespace |
| Shell.TrimIdempotent | src/user/shell.rs:20 | trimming twice is trimming once |
| Shell.TrimIgnoresSurroundingWhitespace | src/user/shell.rs:20 | whitespace around a string does not change what it trims to |
| Shell.Parse | src/user/shell.rs:19-29 | each of the four words iff the trimmed input is that word; otherwise `Unknown("")` for blank input and `Unknown("unknown")` for anything else |
| Shell.ParseIgnoresSurroundingWhitespace | src/user/shell.rs:19-29 | whitespace around a command does not change how it parses |
| Shell.PaddedExitParses | src/user/shell.rs:19-29 | "exit" between any whitespace is the exit command |
| Shell.TrimKeepsWord | src/user/shell.rs:20 | a string without whitespace at either end trims to itself |
| Shell.ParseExitWithArgument | src/user/shell.rs:19-29 | "exit now" is unknown |
| Shell.ParseBlankLine | src/user/shell.rs:26 | a blank line is `Unknown("")` |
| Shell.Shell.constructor | src/user/shell.rs:38-40 | running |
| Shell.Shell.ExecuteCommand | src/user/shell.rs:62-98 | running stays true unless the command is exit; create runs `CreateStep` with a 4096-byte stack; no other command touches the table or the heap |
| Strings.Utf8Width | src/common/string.rs:5-7 | 1 to 4 bytes, 1 exactly for ASCII |
| Strings.Strlen | src/common/string.rs:5-7 | the UTF-8 byte length, between the number of characters and four times it |
| Strings.StrlenAppend | src/common/string.rs:5-7 | the byte length of a concatenation is the sum of the lengths |
| Strings.StrlenAscii | src/common/string.rs:5-7 | an ASCII string's byte length is its character count |
| Strings.Strcmp | src/common/string.rs:10-16 | 0 iff the strings are equal, 1 otherwise |
| Strings.StrcmpSymmetric | src/common/string.rs:10-16 | the result is symmetric, so it is no ordering |
| Strings.FirstZeroFrom | src/common/string.rs:21-27 | the first 0 byte at or after `i`, or none |
| Strings.Strcpy | src/common/string.rs:19-30 | dst up to and including the first 0 of src becomes that prefix of src, the rest of dst is kept, and dst is returned |

## Left out

- Console output is not modelled. This covers every `uart::print*` call, the `list_*` and `list_directory` printers, and the `Shell::run` banner. The conversion stubs in `src/common/types.rs` are left out for the same reason.
- The inline-assembly reads of registers a7 and a0-a5 are left out. The syscall number and the arguments are parameters (`a7`, `SyscallArgs`), so `SyscallArgs::from_registers` has no counterpart.
- `csrr`/`csrw` on real hardware are not modelled. The CSR file is the `Csrs` record held by a `Hart`, and `read_mstatus`, `write_mepc` and the other one-register accessors are `ReadCsr`/`WriteCsr` with the register's number. The trap handler's address, `handle_exception as usize`, is the `handler` parameter of `InitExceptionHandling`.
- The `static mut` globals (`ALLOCATOR`, the scheduler, the user-mode manager, the file system, the disk) and their wrapper functions are left out. Each object is passed explicitly to the operation that uses it.
- Paging.PageTable.constructor: `PageTable::new` reads whatever the freshly allocated memory holds, so the initial entries are a parameter. `VirtualMemoryManager.Init` asks for the same 4096 bytes and discards the table, as the source does.
- `PageTableEntry::new` and the `get_entry`/`get_entry_mut` accessors are only used inside `map_page`, `unmap_page` and `translate`. They are read as plain array accesses.
- The `vpn >= 512` guards are left out. `Vpn` proves they can never fire.
- Paging.VirtualMemoryManager.MapMemory and UnmapMemory only report their steps on the console. The steps are returned as an extra out-parameter, and `flags` is unused, as in the source.
- Syscall.SyscallHandler.HandleWrite: the bytes `write` reads through `buf_ptr` and sends to the console are not modelled, only the count returned.
- Syscall.SyscallHandler.HandleWaitpid: the status pointer is the one-cell array `status`, and "null" is the argument value 0.
- The pointers of `memcpy`, `memset`, `allocate_string` and `strcpy` are byte arrays indexed from the pointer. `allocate_string` writes into `ram`, an array indexed by address. Aliasing between the two arguments of `memcpy` is excluded by a precondition.
- `usize`/`u32` overflow is not modelled; these quantities are unbounded `nat`: the allocator's `next_free`, the scheduler's `next_pid`, the system-call arguments and `syscall_count`, the FAT entry's `u32` `size` and the handle's `current_position`, and the `current_vaddr`/`current_paddr` sums of `map_memory` and `unmap_memory` (src/kernel/paging.rs:224-226 and 250-251). `Fat.DataSectors` is the exception: for a volume too small for its FAT and root directory it wraps modulo 2^64, as a release build does; a debug build would panic there instead.
- Paging.ChunksEndAtRangeEnd: the last step ends at vaddr + size in unbounded arithmetic; where vaddr + size passes 2^64 the source's `current_vaddr` panics in a debug build and wraps in a release build.
- Paging.VirtualMemoryManager.MapMemory: the steps and physical addresses are exact only while vaddr + size and paddr + size stay below 2^64; beyond that the source panics or wraps.
- Paging.VirtualMemoryManager.UnmapMemory: the steps are exact only while vaddr + size stays below 2^64; beyond that the source panics or wraps.
- Syscall.ForkReturnsFreshPid states that fork either fails with 0xFFFFFFFF or returns the new pid. It does not exclude a pid that equals 0xFFFFFFFF, because pids are unbounded here.
- `Shell::run` and `read_input` are left out. `run` loops forever on a fixed input string, so the model stops at `execute_command`.
- Disk.DiskDriver: the controller's memory is a sequence of 512-byte sectors, not memory-mapped registers, and `DiskResult::Timeout` is never produced, as in the source.
- The file system's `init` reaches the disk through `read_disk_block`. In the model the disk is the `disk` parameter of `Fat.FatFileSystem.Init`.
- Fat.FatFileSystem.LoadFatTable and LoadRootDirectory cannot fail, as in the source. The later stages of `Init` can only fail at the disk read or the signature.
- `open_file` compares a Rust `&str` with the UTF-8 decoding of the 8 name bytes. The argument is its UTF-8 bytes, and `from_utf8(...).unwrap_or("")` is `NameText` over `ValidUtf8`, which follows section 3 of RFC 3629.
- A fairness theorem for `schedule` is left out because it is false. `ScheduleStarvesMiddlePid` shows the counterexample.
- Concurrency and real interrupts are not modelled. The kernel has a single hart, and traps are modelled as calls with the CSR values as inputs.
