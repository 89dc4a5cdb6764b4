/** The process table and its round-robin scheduler (src/kernel/process.rs).

    The scheduler owns a 16-slot array of optional process control blocks,
    the pid of the current process and the next pid to hand out.  Each
    operation is a method on that array and those fields, proved against a
    function on the `SchedState` value they form; the lemmas about those
    functions carry the table's invariants.  A process's stack comes from the
    bump allocator, which is passed in. */
module Process {
  import opened Wrappers
  import opened Memory

  /** The number of slots in the process table. */
  const SLOTS: nat := 16

  datatype ProcessState = Ready | Running | Blocked | Terminated

  /** A process control block.  `stack` is the stack's base address, 0 for
      the null pointer. */
  datatype Process = Process(pid: nat, state: ProcessState, stackPointer: nat,
                             programCounter: nat, stack: nat, stackSize: nat)

  /** `Process::new` on the allocator's state: a Ready process whose stack
      pointer is the top of a freshly allocated stack, or nothing when the
      allocator is exhausted. */
  function Spawn(h: Heap, pid: nat, stackSize: nat): (r: (Heap, Option<Process>))
    ensures r.0 == AllocateFrom(h, stackSize).0
    ensures r.1.Some? <==> AllocateFrom(h, stackSize).1.Some?
    ensures r.1.Some? ==> var p := r.1.value;
                          p.pid == pid && p.state == Ready && p.programCounter == 0 &&
                          p.stack == h.nextFree && p.stackPointer == p.stack + stackSize &&
                          p.stackSize == stackSize
  {
    var (h', ptr) := AllocateFrom(h, stackSize);
    match ptr
    case None => (h', None)
    case Some(stack) => (h', Some(Process(pid, Ready, stack + stackSize, 0, stack, stackSize)))
  }

  /** `Process::new`. */
  method NewProcess(pid: nat, stackSize: nat, alloc: Allocator) returns (p: Option<Process>)
    requires alloc.Valid()
    modifies alloc
    ensures alloc.Valid()
    ensures (alloc.State(), p) == Spawn(old(alloc.State()), pid, stackSize)
  {
    var stack := alloc.Allocate(stackSize);
    if stack.Some? {
      p := Some(Process(pid, Ready, stack.value + stackSize, 0, stack.value, stackSize));
    } else {
      p := None;
    }
  }

  /** `destroy`: the stack is handed back (deallocation frees nothing), the
      stack pointer becomes null and the process is Terminated. */
  function Destroyed(p: Process): (q: Process)
    ensures q.state == Terminated && q.stack == 0
    ensures q.pid == p.pid && q.stackPointer == p.stackPointer &&
            q.programCounter == p.programCounter && q.stackSize == p.stackSize
  {
    if p.stack != 0 then p.(stack := 0, state := Terminated) else p.(state := Terminated)
  }

  /** The scheduler's fields as a value. */
  datatype SchedState = SchedState(procs: seq<Option<Process>>, current: Option<nat>, nextPid: nat)

  /** The scheduler `Scheduler::new` builds: all slots empty, no current
      process, pids starting at 1. */
  function InitialState(): SchedState {
    SchedState(seq(SLOTS, _ => None), None, 1)
  }

  /** The first empty slot at index `i` or later. */
  function FirstEmptyFrom(procs: seq<Option<Process>>, i: nat): (r: Option<nat>)
    requires i <= |procs|
    ensures r.Some? ==> i <= r.value < |procs| && procs[r.value].None? &&
                        forall k :: i <= k < r.value ==> procs[k].Some?
    ensures r.None? ==> forall k :: i <= k < |procs| ==> procs[k].Some?
    decreases |procs| - i
  {
    if i == |procs| then None
    else if procs[i].None? then Some(i)
    else FirstEmptyFrom(procs, i + 1)
  }

  /** Slot `k` holds a process with `pid`. */
  predicate HoldsPid(procs: seq<Option<Process>>, k: nat, pid: nat) {
    k < |procs| && procs[k].Some? && procs[k].value.pid == pid
  }

  /** The first slot at index `i` or later holding a process with `pid`. */
  function FindPidFrom(procs: seq<Option<Process>>, pid: nat, i: nat): (r: Option<nat>)
    requires i <= |procs|
    ensures r.Some? ==> i <= r.value && HoldsPid(procs, r.value, pid) &&
                        forall k :: i <= k < r.value ==> !HoldsPid(procs, k, pid)
    ensures r.None? ==> forall k :: i <= k < |procs| ==> !HoldsPid(procs, k, pid)
    decreases |procs| - i
  {
    if i == |procs| then None
    else if HoldsPid(procs, i, pid) then Some(i)
    else FindPidFrom(procs, pid, i + 1)
  }

  /** The slot of the process with `pid`, as the table's linear scans find it. */
  function FindPid(procs: seq<Option<Process>>, pid: nat): Option<nat> {
    FindPidFrom(procs, pid, 0)
  }

  /** Two tables that agree on which slots hold `pid` agree on where the
      scans find it. */
  lemma {:induction false} FindPidFromAgrees(a: seq<Option<Process>>, b: seq<Option<Process>>, pid: nat, i: nat)
    requires |a| == |b| && i <= |a|
    requires forall k :: i <= k < |a| ==> HoldsPid(a, k, pid) == HoldsPid(b, k, pid)
    ensures FindPidFrom(a, pid, i) == FindPidFrom(b, pid, i)
    decreases |a| - i
  {
    if i < |a| {
      FindPidFromAgrees(a, b, pid, i + 1);
    }
  }

  /** No two slots hold the same pid. */
  predicate PidsDistinct(procs: seq<Option<Process>>) {
    forall i, j :: 0 <= i < j < |procs| && procs[i].Some? && procs[j].Some? ==>
      procs[i].value.pid != procs[j].value.pid
  }

  /** With distinct pids, the scans find a pid at the one slot holding it. */
  lemma FindPidUnique(procs: seq<Option<Process>>, pid: nat, i: nat)
    requires PidsDistinct(procs) && HoldsPid(procs, i, pid)
    ensures FindPid(procs, pid) == Some(i)
  {
    assert FindPid(procs, pid).Some?;
  }

  /** Two tables with the same occupied slots and the same pids in them. */
  predicate SamePids(a: seq<Option<Process>>, b: seq<Option<Process>>) {
    |a| == |b| &&
    forall k :: 0 <= k < |a| ==> a[k].Some? == b[k].Some? && (a[k].Some? ==> a[k].value.pid == b[k].value.pid)
  }

  /** The slot where `schedule` starts its scan: one past the current pid
      reduced modulo 16 (a slot index computed from a pid), or 0 when there
      is no current process. */
  function ScheduleStart(current: Option<nat>): (start: nat)
    ensures start <= SLOTS
    ensures current.None? ==> start == 0
  {
    match current
    case None => 0
    case Some(c) => c % 16 + 1
  }

  /** The slot `k` places after `start` in circular order. */
  function SlotAt(start: nat, k: nat): (index: nat)
    ensures index < SLOTS
  {
    (start + k) % 16
  }

  /** Slot `SlotAt(start, k)` holds a Ready process. */
  predicate SlotReady(procs: seq<Option<Process>>, start: nat, k: nat) {
    |procs| == SLOTS && procs[SlotAt(start, k)].Some? && procs[SlotAt(start, k)].value.state == Ready
  }

  /** The first offset `k` or later, in circular order from `start`, whose
      slot holds a Ready process. */
  function PickFrom(procs: seq<Option<Process>>, start: nat, k: nat): (r: Option<nat>)
    requires k <= SLOTS
    ensures r.Some? ==> k <= r.value < SLOTS && SlotReady(procs, start, r.value) &&
                        forall m :: k <= m < r.value ==> !SlotReady(procs, start, m)
    ensures r.None? ==> forall m :: k <= m < SLOTS ==> !SlotReady(procs, start, m)
    decreases SLOTS - k
  {
    if k == SLOTS then None
    else if SlotReady(procs, start, k) then Some(k)
    else PickFrom(procs, start, k + 1)
  }

  /** `create_process` on the scheduler's and the allocator's state: the
      first empty slot gets a new Ready process with the next pid, which
      then grows by one.  With no empty slot, or no memory for the stack,
      nothing changes. */
  function CreateStep(s: SchedState, h: Heap, stackSize: nat): (r: (SchedState, Heap, Option<nat>))
    ensures r.2.None? <==> FirstEmptyFrom(s.procs, 0).None? || AllocateFrom(h, stackSize).1.None?
    ensures r.2.None? ==> r.0 == s && r.1 == h
    ensures r.2.Some? ==> r.2.value == s.nextPid && r.0.nextPid == s.nextPid + 1 && r.0.current == s.current
    ensures r.2.Some? ==>
              var i := FirstEmptyFrom(s.procs, 0).value;
              s.procs[i].None? && (forall j :: 0 <= j < i ==> s.procs[j].Some?) &&
              |r.0.procs| == |s.procs| && r.0.procs[i] == Spawn(h, s.nextPid, stackSize).1 &&
              (forall j :: 0 <= j < |s.procs| && j != i ==> r.0.procs[j] == s.procs[j]) &&
              r.1 == Spawn(h, s.nextPid, stackSize).0
  {
    match FirstEmptyFrom(s.procs, 0)
    case None => (s, h, None)
    case Some(i) =>
      var (h', p) := Spawn(h, s.nextPid, stackSize);
      match p
      case None => (s, h', None)
      case Some(proc) => (s.(procs := s.procs[i := Some(proc)], nextPid := s.nextPid + 1), h', Some(s.nextPid))
  }

  /** `terminate_process` on the scheduler's state: the slot holding `pid`
      is emptied and the current pid cleared if it was `pid`; an absent pid
      changes nothing. */
  function TerminateStep(s: SchedState, pid: nat): (r: (SchedState, bool))
    ensures r.1 <==> FindPid(s.procs, pid).Some?
    ensures !r.1 ==> r.0 == s
    ensures r.1 ==>
              var i := FindPid(s.procs, pid).value;
              HoldsPid(s.procs, i, pid) && (forall k :: 0 <= k < i ==> !HoldsPid(s.procs, k, pid)) &&
              |r.0.procs| == |s.procs| && r.0.procs[i].None? &&
              (forall j :: 0 <= j < |s.procs| && j != i ==> r.0.procs[j] == s.procs[j])
    ensures r.0.nextPid == s.nextPid
    ensures r.0.current == if s.current == Some(pid) && r.1 then None else s.current
  {
    match FindPid(s.procs, pid)
    case None => (s, false)
    case Some(i) =>
      (s.(procs := s.procs[i := None], current := if s.current == Some(pid) then None else s.current), true)
  }

  /** The table after the current process, if found, is put back to Ready. */
  function ResetCurrent(procs: seq<Option<Process>>, current: Option<nat>): (r: seq<Option<Process>>)
    ensures SamePids(r, procs)
    ensures forall k :: 0 <= k < |procs| && r[k] != procs[k] ==>
              current.Some? && FindPid(procs, current.value) == Some(k) && r[k].value.state == Ready
  {
    if current.None? then procs
    else match FindPid(procs, current.value)
      case None => procs
      case Some(j) => procs[j := Some(procs[j].value.(state := Ready))]
  }

  /** `schedule` on the scheduler's state: the first Ready slot in circular
      order from `ScheduleStart` becomes Running and current, after the old
      current process is put back to Ready.  With no Ready slot nothing
      changes. */
  function ScheduleStep(s: SchedState): (r: (SchedState, Option<nat>))
    requires |s.procs| == SLOTS
    ensures r.1.None? <==> PickFrom(s.procs, ScheduleStart(s.current), 0).None?
    ensures r.1.None? ==> r.0 == s
    ensures r.1.Some? ==> r.0.current == r.1 && r.0.nextPid == s.nextPid
  {
    var start := ScheduleStart(s.current);
    match PickFrom(s.procs, start, 0)
    case None => (s, None)
    case Some(k) =>
      var index := SlotAt(start, k);
      var procs := ResetCurrent(s.procs, s.current);
      var p := procs[index].value;
      (SchedState(procs[index := Some(p.(state := Running))], Some(p.pid), s.nextPid), Some(p.pid))
  }

  /** Every live pid lies in [1, next_pid). */
  predicate PidsBelow(procs: seq<Option<Process>>, nextPid: nat) {
    forall i :: 0 <= i < |procs| && procs[i].Some? ==> 1 <= procs[i].value.pid < nextPid
  }

  /** A Running process is the current one. */
  predicate RunningIsCurrent(procs: seq<Option<Process>>, current: Option<nat>) {
    forall i :: 0 <= i < |procs| && procs[i].Some? && procs[i].value.state == Running ==>
      current == Some(procs[i].value.pid)
  }

  /** The current process, if any, is in the table and Running. */
  predicate CurrentRunning(procs: seq<Option<Process>>, current: Option<nat>) {
    current.Some? ==>
      (FindPid(procs, current.value).Some? && procs[FindPid(procs, current.value).value].value.state == Running)
  }

  /** The table's invariant: 16 slots; every live pid is in [1, next_pid);
      no two slots share a pid; a Running process is the current one; the
      current process, if any, is in the table and Running. */
  ghost predicate Valid(s: SchedState) {
    && |s.procs| == SLOTS
    && s.nextPid >= 1
    && PidsBelow(s.procs, s.nextPid)
    && PidsDistinct(s.procs)
    && RunningIsCurrent(s.procs, s.current)
    && CurrentRunning(s.procs, s.current)
  }

  lemma InitialStateValid()
    ensures Valid(InitialState())
  {
  }

  /** At most one process is Running. */
  lemma AtMostOneRunning(s: SchedState, i: nat, j: nat)
    requires Valid(s)
    requires i < SLOTS && s.procs[i].Some? && s.procs[i].value.state == Running
    requires j < SLOTS && s.procs[j].Some? && s.procs[j].value.state == Running
    ensures i == j
  {
    FindPidUnique(s.procs, s.current.value, i);
    FindPidUnique(s.procs, s.current.value, j);
  }

  /** A created process gets a pid no live process has, and pids are never
      handed out twice: `next_pid` only grows. */
  lemma CreatedPidIsFresh(s: SchedState, h: Heap, stackSize: nat)
    requires Valid(s)
    ensures var (s', h', pid) := CreateStep(s, h, stackSize);
            s'.nextPid >= s.nextPid &&
            (pid.Some? ==> forall i :: 0 <= i < SLOTS && s.procs[i].Some? ==> s.procs[i].value.pid != pid.value)
  {
  }

  lemma CreatePreservesValid(s: SchedState, h: Heap, stackSize: nat)
    requires Valid(s)
    ensures Valid(CreateStep(s, h, stackSize).0)
  {
    var (s', h', pid) := CreateStep(s, h, stackSize);
    if pid.Some? {
      var i := FirstEmptyFrom(s.procs, 0).value;
      assert s'.procs == s.procs[i := s'.procs[i]];
      if s.current.Some? {
        FindPidFromAgrees(s.procs, s'.procs, s.current.value, 0);
      }
    }
  }

  lemma TerminatePreservesValid(s: SchedState, pid: nat)
    requires Valid(s)
    ensures Valid(TerminateStep(s, pid).0)
  {
    var (s', found) := TerminateStep(s, pid);
    if found && s'.current.Some? {
      var c := s.current.value;
      var i := FindPid(s.procs, pid).value;
      assert c != pid;
      FindPidFromAgrees(s.procs, s'.procs, c, 0);
    }
  }

  /** Terminating pid 0 never finds a process: pids start at 1. */
  lemma TerminatePidZeroIsNoop(s: SchedState)
    requires Valid(s)
    ensures TerminateStep(s, 0) == (s, false)
  {
  }

  /** After the old current process is put back, no slot is Running. */
  lemma NoneRunningAfterReset(s: SchedState, i: nat)
    requires Valid(s) && i < SLOTS
    ensures var procs := ResetCurrent(s.procs, s.current);
            procs[i].Some? ==> procs[i].value.state != Running
  {
    if s.current.Some? && s.procs[i].Some? && s.procs[i].value.state == Running {
      FindPidUnique(s.procs, s.current.value, i);
    }
  }

  lemma SchedulePreservesValid(s: SchedState)
    requires Valid(s)
    ensures Valid(ScheduleStep(s).0)
  {
    var start := ScheduleStart(s.current);
    var pick := PickFrom(s.procs, start, 0);
    if pick.Some? {
      var index := SlotAt(start, pick.value);
      var procs := ResetCurrent(s.procs, s.current);
      var p := procs[index].value;
      var procs' := procs[index := Some(p.(state := Running))];
      assert ScheduleStep(s).0 == SchedState(procs', Some(p.pid), s.nextPid);
      assert SamePids(procs', s.procs);
      forall i | 0 <= i < SLOTS && procs'[i].Some? && procs'[i].value.state == Running
        ensures i == index
      {
        NoneRunningAfterReset(s, i);
      }
      FindPidUnique(procs', p.pid, index);
    }
  }

  /** With no Ready process `schedule` changes nothing, so a Running current
      process stays Running. */
  lemma NoReadyKeepsState(s: SchedState)
    requires |s.procs| == SLOTS
    requires forall i :: 0 <= i < SLOTS && s.procs[i].Some? ==> s.procs[i].value.state != Ready
    ensures ScheduleStep(s) == (s, None)
  {
    var start := ScheduleStart(s.current);
    var r := PickFrom(s.procs, start, 0);
    assert r.Some? ==> SlotReady(s.procs, start, r.value);
  }

  /** Pick-and-run: the picked slot's process becomes Running and current,
      the old current process (if any) becomes Ready, and every other slot
      is untouched. */
  lemma SchedulePick(s: SchedState)
    requires Valid(s)
    requires PickFrom(s.procs, ScheduleStart(s.current), 0).Some?
    ensures var start := ScheduleStart(s.current);
            var index := SlotAt(start, PickFrom(s.procs, start, 0).value);
            var (s', pid) := ScheduleStep(s);
            s'.procs[index] == Some(s.procs[index].value.(state := Running)) &&
            pid == Some(s.procs[index].value.pid) &&
            (s.current.Some? ==> var j := FindPid(s.procs, s.current.value).value;
                                 s'.procs[j] == Some(s.procs[j].value.(state := Ready))) &&
            forall i :: 0 <= i < SLOTS && i != index &&
                        (s.current.None? || i != FindPid(s.procs, s.current.value).value) ==>
                        s'.procs[i] == s.procs[i]
  {
    var start := ScheduleStart(s.current);
    var index := SlotAt(start, PickFrom(s.procs, start, 0).value);
    assert SlotReady(s.procs, start, PickFrom(s.procs, start, 0).value);
  }

  /** `PickFrom` from `start` lands on offset `k` when slot `(start + k) % 16`
      is the first Ready one. */
  lemma PickedAt(procs: seq<Option<Process>>, start: nat, k: nat)
    requires |procs| == SLOTS && k < SLOTS
    requires SlotReady(procs, start, k)
    requires forall m :: 0 <= m < k ==> !SlotReady(procs, start, m)
    ensures PickFrom(procs, start, 0) == Some(k)
  {
  }

  /** A Ready process with `pid` and no stack. */
  function ReadyProc(pid: nat): Process {
    Process(pid, Ready, 0, 0, 0, 0)
  }

  /** A table with pids 1, 2 and 3 Ready in slots 0, 1 and 2. */
  function ThreeReady(): SchedState {
    SchedState(seq(SLOTS, i requires 0 <= i => if i < 3 then Some(ReadyProc(i + 1)) else None), None, 4)
  }

  /** The same table once the process in slot `running` has been picked. */
  function ThreeWithRunning(running: nat): SchedState {
    SchedState(seq(SLOTS, i requires 0 <= i =>
                 if i < 3 then Some(ReadyProc(i + 1).(state := if i == running then Running else Ready)) else None),
               Some(running + 1), 4)
  }

  lemma ThreeReadyFirstPick()
    ensures ScheduleStep(ThreeReady()) == (ThreeWithRunning(0), Some(1))
  {
    var s := ThreeReady();
    PickedAt(s.procs, 0, 0);
    var after := s.procs[0 := Some(ReadyProc(1).(state := Running))];
    assert forall i :: 0 <= i < SLOTS ==> after[i] == ThreeWithRunning(0).procs[i];
    assert after == ThreeWithRunning(0).procs;
  }

  /** With pid 1 current the scan starts at slot 2 and picks pid 3. */
  lemma ThreeReadyFromPid1()
    ensures ScheduleStep(ThreeWithRunning(0)) == (ThreeWithRunning(2), Some(3))
  {
    var s := ThreeWithRunning(0);
    PickedAt(s.procs, 2, 0);
    assert FindPid(s.procs, 1) == Some(0);
    MoveRunning(0, 2);
  }

  /** With pid 3 current the scan starts at slot 4, wraps round and picks
      pid 1 in slot 0. */
  lemma ThreeReadyFromPid3()
    ensures ScheduleStep(ThreeWithRunning(2)) == (ThreeWithRunning(0), Some(1))
  {
    var s := ThreeWithRunning(2);
    WrapsToSlot0();
    PutsBackPid3();
    MoveRunning(2, 0);
  }

  /** Putting the Running process in slot `a` back and running slot `b`
      gives the table with `b` running. */
  lemma MoveRunning(a: nat, b: nat)
    requires a < 3 && b < 3
    ensures ThreeWithRunning(a).procs[a := Some(ReadyProc(a + 1))][b := Some(ReadyProc(b + 1).(state := Running))] ==
            ThreeWithRunning(b).procs
  {
    var after := ThreeWithRunning(a).procs[a := Some(ReadyProc(a + 1))][b := Some(ReadyProc(b + 1).(state := Running))];
    assert forall i :: 0 <= i < SLOTS ==> after[i] == ThreeWithRunning(b).procs[i];
  }

  /** From slot 4 the scan passes twelve empty slots and stops at slot 0. */
  lemma WrapsToSlot0()
    ensures PickFrom(ThreeWithRunning(2).procs, 4, 0) == Some(12)
  {
    NothingReadyFromSlot4(2);
    assert SlotAt(4, 12) == 0;
    PickedAt(ThreeWithRunning(2).procs, 4, 12);
  }

  /** Putting pid 3 back makes slot 2 Ready and changes nothing else. */
  lemma PutsBackPid3()
    ensures ResetCurrent(ThreeWithRunning(2).procs, Some(3)) ==
            ThreeWithRunning(2).procs[2 := Some(ReadyProc(3))]
  {
    var procs := ThreeWithRunning(2).procs;
    assert FindPidFrom(procs, 3, 2) == Some(2);
    assert FindPidFrom(procs, 3, 1) == Some(2);
  }

  /** Slots 4 to 15 of these tables are empty. */
  lemma NothingReadyFromSlot4(running: nat)
    ensures forall m :: 0 <= m < 12 ==> !SlotReady(ThreeWithRunning(running).procs, 4, m)
  {
    forall m | 0 <= m < 12
      ensures !SlotReady(ThreeWithRunning(running).procs, 4, m)
    {
      assert SlotAt(4, m) == 4 + m;
    }
  }

  /** The scan starts from a pid, not from a slot: with pids 1, 2 and 3 in
      slots 0, 1 and 2, `schedule` picks 1, 3, 1, 3 and then cycles between
      the same two states, so pid 2 is never run. */
  lemma ScheduleStarvesMiddlePid()
    ensures var (s1, p1) := ScheduleStep(ThreeReady());
            var (s2, p2) := ScheduleStep(s1);
            var (s3, p3) := ScheduleStep(s2);
            var (s4, p4) := ScheduleStep(s3);
            [p1, p2, p3, p4] == [Some(1), Some(3), Some(1), Some(3)] &&
            s4 == s2 && s4.procs[1] == Some(ReadyProc(2))
  {
    ThreeReadyFirstPick();
    ThreeReadyFromPid1();
    ThreeReadyFromPid3();
  }

  /** Two processes created in a fresh scheduler get pids 1 and 2, and two
      calls of `schedule` then run 1 and then 2. */
  lemma CreateTwiceThenSchedule(h: Heap)
    requires HeapValid(h) && Available(h) >= 8192
    ensures var (s1, h1, c1) := CreateStep(InitialState(), h, 4096);
            var (s2, h2, c2) := CreateStep(s1, h1, 4096);
            var (s3, r1) := ScheduleStep(s2);
            var (s4, r2) := ScheduleStep(s3);
            c1 == Some(1) && c2 == Some(2) && r1 == Some(1) && r2 == Some(2)
  {
    var s0 := InitialState();
    assert FirstEmptyFrom(s0.procs, 0) == Some(0);
    var (s1, h1, c1) := CreateStep(s0, h, 4096);
    assert FirstEmptyFrom(s1.procs, 1) == Some(1);
    var (s2, h2, c2) := CreateStep(s1, h1, 4096);
    assert s2.procs[0].value.pid == 1 && s2.procs[1].value.pid == 2;
    PickedAt(s2.procs, 0, 0);
    var (s3, r1) := ScheduleStep(s2);
    assert s3.procs[1] == s2.procs[1] && s3.procs[0].value.state == Running;
    assert forall m :: 0 <= m < 15 ==> !SlotReady(s3.procs, 2, m);
    PickedAt(s3.procs, 2, 15);
  }

  /** The scheduler: the process table, the current pid and the next pid. */
  class Scheduler {
    const processes: array<Option<Process>>
    var currentPid: Option<nat>
    var nextPid: nat

    function State(): SchedState
      reads this, processes
    {
      SchedState(processes[..], currentPid, nextPid)
    }

    /** `Scheduler::new`. */
    constructor ()
      ensures State() == InitialState() && fresh(processes)
    {
      processes := new Option<Process>[SLOTS](_ => None);
      currentPid := None;
      nextPid := 1;
    }

    /** `create_process`: scans the slots and, at each empty one, asks for a
        stack; the first success fills that slot.  A failed request leaves
        the allocator unchanged, so asking again at a later slot fails too. */
    method CreateProcess(stackSize: nat, alloc: Allocator) returns (pid: Option<nat>)
      requires processes.Length == SLOTS && alloc.Valid()
      modifies this, processes, alloc
      ensures alloc.Valid()
      ensures (State(), alloc.State(), pid) == CreateStep(old(State()), old(alloc.State()), stackSize)
    {
      var i := 0;
      while i < SLOTS
        invariant 0 <= i <= SLOTS
        invariant State() == old(State()) && alloc.State() == old(alloc.State()) && alloc.Valid()
        invariant (forall k :: 0 <= k < i ==> processes[k].Some?) ||
                  Spawn(old(alloc.State()), nextPid, stackSize).1.None?
      {
        if processes[i].None? {
          var p := NewProcess(nextPid, stackSize, alloc);
          if p.Some? {
            processes[i] := p;
            pid := Some(nextPid);
            nextPid := nextPid + 1;
            return;
          }
        }
        i := i + 1;
      }
      pid := None;
    }

    /** `terminate_process`: the first slot holding `pid` is emptied (its
        process destroyed and dropped) and the current pid is cleared if it
        was `pid`. */
    method TerminateProcess(pid: nat) returns (found: bool)
      requires processes.Length == SLOTS
      modifies this, processes
      ensures (State(), found) == TerminateStep(old(State()), pid)
    {
      var i := 0;
      while i < SLOTS
        invariant 0 <= i <= SLOTS
        invariant State() == old(State())
        invariant FindPid(processes[..], pid) == FindPidFrom(processes[..], pid, i)
      {
        if processes[i].Some? && processes[i].value.pid == pid {
          assert FindPid(processes[..], pid) == Some(i);
          processes[i] := Some(Destroyed(processes[i].value));
          processes[i] := None;
          assert processes[..] == old(processes[..])[i := None];
          if currentPid == Some(pid) {
            currentPid := None;
          }
          return true;
        }
        i := i + 1;
      }
      return false;
    }

    /** The inner loop of `schedule`: the first slot holding `current` is
        put back to Ready. */
    method PutBack(current: nat)
      requires processes.Length == SLOTS
      modifies processes
      ensures processes[..] == ResetCurrent(old(processes[..]), Some(current))
    {
      var j := 0;
      while j < SLOTS
        invariant 0 <= j <= SLOTS
        invariant processes[..] == old(processes[..])
        invariant FindPid(processes[..], current) == FindPidFrom(processes[..], current, j)
      {
        if processes[j].Some? && processes[j].value.pid == current {
          assert FindPid(processes[..], current) == Some(j);
          processes[j] := Some(processes[j].value.(state := Ready));
          return;
        }
        j := j + 1;
      }
    }

    /** `schedule`. */
    method Schedule() returns (pid: Option<nat>)
      requires processes.Length == SLOTS
      modifies this, processes
      ensures (State(), pid) == ScheduleStep(old(State()))
    {
      ghost var s0 := State();
      var start := if currentPid.Some? then currentPid.value % 16 + 1 else 0;
      assert start == ScheduleStart(currentPid);
      var i := 0;
      while i < SLOTS
        invariant 0 <= i <= SLOTS
        invariant State() == s0
        invariant PickFrom(s0.procs, start, 0) == PickFrom(s0.procs, start, i)
      {
        var index := SlotAt(start, i);
        if processes[index].Some? && processes[index].value.state == Ready {
          assert SlotReady(s0.procs, start, i);
          assert PickFrom(s0.procs, start, 0) == Some(i);
          if currentPid.Some? {
            PutBack(currentPid.value);
          }
          ghost var reset := ResetCurrent(s0.procs, s0.current);
          assert processes[..] == reset;
          var p := processes[index].value;
          processes[index] := Some(p.(state := Running));
          currentPid := Some(p.pid);
          assert State() == SchedState(reset[index := Some(p.(state := Running))], Some(p.pid), s0.nextPid);
          return Some(p.pid);
        }
        i := i + 1;
      }
      return None;
    }

    /** `get_process`: the process with `pid`, as the first matching slot
        holds it. */
    method GetProcess(pid: nat) returns (p: Option<Process>)
      requires processes.Length == SLOTS
      ensures p.Some? <==> FindPid(processes[..], pid).Some?
      ensures p.Some? ==> p == processes[FindPid(processes[..], pid).value] && p.value.pid == pid
    {
      var i := 0;
      while i < SLOTS
        invariant 0 <= i <= SLOTS
        invariant FindPid(processes[..], pid) == FindPidFrom(processes[..], pid, i)
      {
        if processes[i].Some? && processes[i].value.pid == pid {
          return processes[i];
        }
        i := i + 1;
      }
      return None;
    }

    /** `get_process_mut`: the mutable reference is the slot index. */
    method GetProcessMut(pid: nat) returns (slot: Option<nat>)
      requires processes.Length == SLOTS
      ensures slot.Some? <==> exists k :: 0 <= k < SLOTS && processes[k].Some? && processes[k].value.pid == pid
      ensures slot.Some? ==> slot.value < SLOTS && processes[slot.value].Some? &&
                             processes[slot.value].value.pid == pid &&
                             forall k :: 0 <= k < slot.value ==> !(processes[k].Some? && processes[k].value.pid == pid)
    {
      var i := 0;
      while i < SLOTS
        invariant 0 <= i <= SLOTS
        invariant forall k :: 0 <= k < i ==> !(processes[k].Some? && processes[k].value.pid == pid)
      {
        if processes[i].Some? && processes[i].value.pid == pid {
          return Some(i);
        }
        i := i + 1;
      }
      return None;
    }
  }
}
