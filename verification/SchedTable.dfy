// What every step does to every table entry.
module SchedTable {
  import opened Wrappers
  import opened Slots
  import opened Sched
  import opened SchedInvariant
  import opened SchedSteps
  import opened SchedEffects

  // ------------------------------------------------------ what can happen to k

  predicate Runs(s: State, k: nat) {
    s.cur == Some(k)
  }

  // The step puts k on the CPU.
  predicate Serves(s: State, st: Step, k: nat) {
    st.DoDispatch? && CanDispatch(s) && Next(s) == k
  }

  // The step is an allocation of slot k.
  predicate Takes(s: State, st: Step, k: nat) {
    st.DoAlloc? && s.unused != [] && s.unused[0] == k
  }

  // The step is a wait() that takes the dead process out of slot k.
  predicate Reaps(s: State, st: Step, k: nat) {
    st.DoWait? && s.cur.Some? && k < |s.procs| && FirstDead(s, s.cur.value, 0) == k
  }

  // The step marks slot k: kill() with its number, or a fault of its process.
  predicate Marks(s: State, st: Step, k: nat) {
    (st.DoKill? && k < |s.procs| && FirstPid(s.procs, st.pid, 0) == k) || (st.DoFault? && Runs(s, k))
  }

  // What ends the sleep of k: a wakeup on its channel, a kill, whatever the
  // channel, and for a sleeper in wait() the exit of a child or the arrival of a
  // dead one.
  ghost predicate Wakes(s: State, st: Step, k: nat) {
    && k < |s.procs| && s.procs[k].state == SLEEPING
    && ((st.DoWakeup? && s.procs[k].chan == st.c)
        || (st.DoKill? && FirstPid(s.procs, st.pid, 0) == k)
        || (st.DoExit? && s.cur.Some? && HearsExit(s, s.cur.value, k)))
  }

  // setPriority() is about the last slot with the number, if it is in use.
  predicate Renames(s: State, st: Step, k: nat) {
    st.DoSetPriority? && LastPid(s.procs, st.pid, |s.procs|) == Some(k) && s.procs[k].state != UNUSED
  }

  predicate Boosts(s: State, st: Step) {
    st.DoYield? && s.gticks == 99
  }

  // The account of k starts afresh.
  predicate Resets(s: State, st: Step, k: nat)
    requires k < |s.procs|
  {
    || Takes(s, st, k) || Reaps(s, st, k) || (st.DoUnlock? && s.lock.Some? && Runs(s, k))
    || (Boosts(s, st) && (Runs(s, k) || s.procs[k].state in {SLEEPING, RUNNABLE}))
  }

  // The yield of k uses up its quantum: 4, 6 or 8 ticks, by level. The lock holder
  // and the process that last unlocked have none.
  predicate Spends(s: State, st: Step, k: nat)
    requires k < |s.procs|
  {
    st.DoYield? && Runs(s, k) && s.cur !in {s.lock, s.unlock} && s.procs[k].ticks + 1 == Limit(s.procs[k].level)
  }

  function Limit(level: int): (r: int) {
    if level == 0 then 4 else if level == 1 then 6 else 8
  }

  // ------------------------------------------------------------- the columns

  ghost function StateAfter(s: State, st: Step, k: nat): (r: ProcState)
    requires k < |s.procs|
  {
    if Serves(s, st, k) then RUNNING
    else if (st.DoYield? && Runs(s, k)) || st == DoForkFinish(k) || Wakes(s, st, k) then RUNNABLE
    else if Blocks(s, st) && Runs(s, k) then SLEEPING
    else if st.DoExit? && Runs(s, k) then ZOMBIE
    else if Takes(s, st, k) then EMBRYO
    else if st == DoForkFail(k) || Reaps(s, st, k) then UNUSED
    else s.procs[k].state
  }

  function PidAfter(s: State, st: Step, k: nat): (r: int)
    requires k < |s.procs|
  {
    if Takes(s, st, k) then s.nextpid else if Reaps(s, st, k) then 0 else s.procs[k].pid
  }

  // The child of a fork belongs to the process that runs; exit() hands on the
  // children of the process that runs to init.
  function ParentAfter(s: State, st: Step, k: nat): (r: Option<nat>)
    requires k < |s.procs|
  {
    if st == DoForkFinish(k) then s.cur
    else if st.DoExit? && s.cur.Some? && s.procs[k].parent == s.cur then Some(s.init)
    else if Reaps(s, st, k) then None
    else s.procs[k].parent
  }

  // A sleeper has the channel it went to sleep on until it runs again.
  ghost function ChanAfter(s: State, st: Step, k: nat): (r: Chan)
    requires k < |s.procs|
  {
    if st.DoSleep? && Runs(s, k) then Address(st.a)
    else if st.DoWait? && Runs(s, k) && CanWait(s, k) then EntryOf(k)
    else if Serves(s, st, k) then NoChan
    else s.procs[k].chan
  }

  predicate KilledAfter(s: State, st: Step, k: nat)
    requires k < |s.procs|
  {
    Marks(s, st, k) || (s.procs[k].killed && !Reaps(s, st, k))
  }

  function LevelAfter(s: State, st: Step, k: nat): (r: int)
    requires k < |s.procs|
  {
    if Resets(s, st, k) then 0
    else if Spends(s, st, k) then (if s.procs[k].level == 0 then 1 else 2)
    else s.procs[k].level
  }

  function TicksAfter(s: State, st: Step, k: nat): (r: int)
    requires k < |s.procs|
  {
    if Resets(s, st, k) || Spends(s, st, k) then 0
    else if st.DoYield? && Runs(s, k) then s.procs[k].ticks + 1
    else s.procs[k].ticks
  }

  function PriorityAfter(s: State, st: Step, k: nat): (r: int)
    requires k < |s.procs|
  {
    var v := s.procs[k].priority;
    if Resets(s, st, k) then 3
    else if Spends(s, st, k) && s.procs[k].level == 2 then (if v == 0 then 0 else v - 1)
    else if Renames(s, st, k) then st.v
    else v
  }

  ghost function EntryAfter(s: State, st: Step, k: nat): (r: Pcb)
    requires k < |s.procs|
  {
    Pcb(StateAfter(s, st, k), PidAfter(s, st, k), ParentAfter(s, st, k), ChanAfter(s, st, k), KilledAfter(s, st, k),
        PriorityAfter(s, st, k), LevelAfter(s, st, k), TicksAfter(s, st, k))
  }

  // ---------------------------------------------------------- step by step

  lemma DispatchEntry(s: State, k: nat)
    requires Inv(s) && CanDispatch(s) && k < |s.procs|
    ensures Dispatch(s).procs[k] == EntryAfter(s, DoDispatch, k)
  {
    hide Partition, Sorted, LockOk, Family, PidsOk, EmbryosOk;
  }

  lemma YieldEntry(s: State, k: nat)
    requires Inv(s) && s.cur.Some? && k < |s.procs|
    ensures Yield(s).procs[k] == EntryAfter(s, DoYield, k)
  {
    hide Partition, Sorted, LockOk, Family, PidsOk, EmbryosOk, Yield;
    YieldTable(s, k);
  }

  // A process that goes to sleep does so on the channel it names.
  lemma SleepEntry(s: State, c: Chan, k: nat)
    requires Inv(s) && s.cur.Some? && k < |s.procs|
    ensures SleepOn(s, c).procs[k] == if Runs(s, k) then s.procs[k].(state := SLEEPING, chan := c) else s.procs[k]
  {
    hide Partition, Sorted, CpuOk, LockOk, Family, PidsOk, EmbryosOk;
  }

  lemma WaitEntry(s: State, k: nat)
    requires Inv(s) && s.cur.Some? && k < |s.procs|
    ensures Wait(s).procs[k] == EntryAfter(s, DoWait, k)
  {
    hide Partition, Sorted, LockOk, Family, PidsOk, EmbryosOk, SleepOn;
    WaitBlocks(s);
    RunningFacts(s);
    if CanWait(s, s.cur.value) {
      NobodyDead(s, s.cur.value);
      SleepEntry(s, EntryOf(s.cur.value), k);
    } else {
      if FirstDead(s, s.cur.value, 0) == k { DeadNotRunning(s, k); }
    }
  }

  lemma NobodyDead(s: State, me: nat)
    requires CanWait(s, me)
    ensures FirstDead(s, me, 0) == |s.procs|
  {
  }

  lemma DeadNotRunning(s: State, k: nat)
    requires Inv(s) && s.cur.Some? && FirstDead(s, s.cur.value, 0) == k < |s.procs|
    ensures !Runs(s, k)
  {
    RunningFacts(s);
  }

  lemma ExitEntry(s: State, k: nat)
    requires Inv(s) && s.cur.Some? && s.cur.value != s.init && k < |s.procs|
    ensures Exit(s).procs[k] == EntryAfter(s, DoExit, k)
  {
    hide Partition, Sorted, LockOk, PidsOk, EmbryosOk, Exit;
    ExitTable(s);
    RunningFacts(s);
    var me := s.cur.value;
    if k == me {
      assert ParentOk(s, me);
    } else {
      assert OnlyWoken(s.procs[k], Exit(s).procs[k]);
    }
  }

  lemma AllocEntry(s: State, k: nat)
    requires Inv(s) && s.cur.Some? && k < |s.procs|
    ensures Alloc(s).procs[k] == EntryAfter(s, DoAlloc, k)
  {
    hide Partition, Sorted, LockOk, Family, PidsOk, EmbryosOk;
  }

  lemma ForkEntry(s: State, st: Step, k: nat)
    requires Inv(s) && Enabled(s, st) && k < |s.procs| && (st.DoForkFail? || st.DoForkFinish?)
    ensures Apply(s, st).procs[k] == EntryAfter(s, st, k)
  {
    hide Partition, Sorted, LockOk, Family, PidsOk, EmbryosOk;
  }

  lemma WakeupEntry(s: State, c: Chan, k: nat)
    requires Inv(s) && k < |s.procs|
    ensures Wakeup(s, c).procs[k] == EntryAfter(s, DoWakeup(c), k)
  {
    hide Partition, Sorted, LockOk, Family, PidsOk, EmbryosOk, Wakeup;
    WakeupKeeps(s, c);
  }

  lemma KillEntry(s: State, pid: int, k: nat)
    requires Inv(s) && k < |s.procs|
    ensures Kill(s, pid).procs[k] == EntryAfter(s, DoKill(pid), k)
  {
    hide Partition, Sorted, CpuOk, LockOk, Family, PidsOk, EmbryosOk;
  }

  lemma SetPriorityEntry(s: State, pid: int, v: int, k: nat)
    requires Inv(s) && s.cur.Some? && k < |s.procs|
    ensures SetPriority(s, pid, v).procs[k] == EntryAfter(s, DoSetPriority(pid, v), k)
  {
    hide Partition, Sorted, CpuOk, LockOk, Family, PidsOk, EmbryosOk;
  }

  lemma LockEntry(s: State, st: Step, k: nat)
    requires Inv(s) && Enabled(s, st) && k < |s.procs| && (st.DoLock? || st.DoUnlock? || st.DoFault?)
    ensures Apply(s, st).procs[k] == EntryAfter(s, st, k)
  {
    hide Partition, Sorted, CpuOk, LockOk, Family, PidsOk, EmbryosOk;
  }

  // What every step does to every entry of the process table.
  lemma EntryStep(s: State, st: Step, k: nat)
    requires Inv(s) && Enabled(s, st) && k < |s.procs|
    ensures Apply(s, st).procs[k] == EntryAfter(s, st, k)
  {
    hide Core, EntryAfter, Dispatch, Yield, SleepOn, Wait, Exit, Alloc, ForkFail, ForkFinish, Wakeup, Kill, SetPriority,
      Lock, Unlock, Fault;
    match st
    case DoDispatch => DispatchEntry(s, k);
    case DoYield => YieldEntry(s, k);
    case DoSleep(a) => SleepStep(s, a, k);
    case DoWait => WaitEntry(s, k);
    case DoExit => ExitEntry(s, k);
    case DoAlloc => AllocEntry(s, k);
    case DoForkFail(e) => ForkEntry(s, st, k);
    case DoForkFinish(e) => ForkEntry(s, st, k);
    case DoWakeup(c) => WakeupEntry(s, c, k);
    case DoKill(pid) => KillEntry(s, pid, k);
    case DoSetPriority(pid, v) => SetPriorityEntry(s, pid, v, k);
    case DoLock => LockEntry(s, st, k);
    case DoUnlock => LockEntry(s, st, k);
    case DoFault => LockEntry(s, st, k);
  }

  lemma SleepStep(s: State, a: int, k: nat)
    requires Inv(s) && s.cur.Some? && k < |s.procs|
    ensures SleepOn(s, Address(a)).procs[k] == EntryAfter(s, DoSleep(a), k)
  {
    hide Core, SleepOn;
    SleepEntry(s, Address(a), k);
  }

  // The table that userinit() leaves: init in slot 0, and all other slots unused.
  lemma BootTable(n: nat)
    requires n > 0
    ensures var s := Boot(n);
      && s.procs[0] == Pcb(RUNNABLE, 1, None, NoChan, false, 3, 0, 0)
      && (forall k: nat :: 0 < k < n ==> s.procs[k] == Pcb(UNUSED, 0, None, NoChan, false, 0, 0, 0))
      && s.l0 == [0] && s.l1 == [] && s.l2 == [] && s.sleep == []
      && |s.unused| == n - 1 && (forall k: nat :: k < n - 1 ==> s.unused[k] == k + 1)
      && (s.lock, s.unlock, s.cur, s.init, s.gticks, s.nextpid) == (None, None, None, 0, 0, 2)
  {
  }

  // --------------------------------------------------- the rest of the state

  // The CPU, the process numbers and the init process.
  lemma CpuStep(s: State, st: Step)
    requires Inv(s) && Enabled(s, st)
    ensures var t := Apply(s, st);
      && |t.procs| == |s.procs| && t.init == s.init
      && t.nextpid == s.nextpid + (if st.DoAlloc? && s.unused != [] then 1 else 0)
      && t.cur == if st.DoDispatch? then Some(Next(s))
                  else if st.DoYield? || st.DoExit? || Blocks(s, st) then None
                  else s.cur
  {
    hide Partition, Sorted, LockOk, Family, PidsOk, EmbryosOk, Yield, Exit, Wakeup, Wait, SleepOn;
    match st
    case DoYield => YieldCpu(s);
    case DoSleep(a) => SleepCpu(s, Address(a));
    case DoWait => WaitBlocks(s); WaitCpu(s);
    case DoExit => ExitTable(s);
    case DoWakeup(c) => WakeupKeeps(s, c);
    case _ =>
  }

  lemma YieldCpu(s: State)
    requires Inv(s) && s.cur.Some?
    ensures Yield(s).cur == None && Yield(s).init == s.init && Yield(s).nextpid == s.nextpid
  {
    hide Core;
  }

  lemma SleepCpu(s: State, c: Chan)
    requires Inv(s) && s.cur.Some?
    ensures var t := SleepOn(s, c); t.cur == None && t.init == s.init && t.nextpid == s.nextpid
  {
    hide Core;
  }

  lemma WaitCpu(s: State)
    requires Inv(s) && s.cur.Some?
    ensures Wait(s).init == s.init && Wait(s).nextpid == s.nextpid
  {
    hide Core, SleepOn;
    SleepCpu(s, EntryOf(s.cur.value));
  }

  // Slots are used in the order in which they became free.
  lemma UnusedStep(s: State, st: Step)
    requires Inv(s) && Enabled(s, st)
    ensures st.DoAlloc? && s.unused != [] ==> Apply(s, st).unused == s.unused[1..]
    ensures st.DoForkFail? ==> Apply(s, st).unused == s.unused + [st.e]
    ensures forall k: nat :: Reaps(s, st, k) ==> Apply(s, st).unused == s.unused + [k]
    ensures !(st.DoAlloc? && s.unused != []) && !st.DoForkFail? && (forall k: nat :: !Reaps(s, st, k)) ==>
      Apply(s, st).unused == s.unused
  {
    hide Partition, Sorted, LockOk, Family, PidsOk, EmbryosOk, Yield, Exit, Wakeup, Wait, SleepOn;
    match st
    case DoYield => YieldUnused(s);
    case DoSleep(a) => SleepUnused(s, Address(a));
    case DoWait => WaitUnused(s);
    case DoExit => ExitTable(s);
    case DoWakeup(c) => WakeupKeeps(s, c);
    case _ =>
  }

  lemma YieldUnused(s: State)
    requires Inv(s) && s.cur.Some?
    ensures Yield(s).unused == s.unused
  {
    hide Core;
  }

  lemma SleepUnused(s: State, c: Chan)
    requires Inv(s) && s.cur.Some?
    ensures SleepOn(s, c).unused == s.unused && SleepOn(s, c).sleep == s.sleep + [s.cur.value]
  {
    hide Core;
  }

  lemma WaitUnused(s: State)
    requires Inv(s) && s.cur.Some?
    ensures forall k: nat :: Reaps(s, DoWait, k) ==> Wait(s).unused == s.unused + [k]
    ensures (forall k: nat :: !Reaps(s, DoWait, k)) ==> Wait(s).unused == s.unused
  {
    hide Core, SleepOn;
    SleepUnused(s, EntryOf(s.cur.value));
    var z := FirstDead(s, s.cur.value, 0);
    if z < |s.procs| {
      assert Reaps(s, DoWait, z);
    }
  }
}
