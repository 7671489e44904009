# Verification of a modified xv6 kernel

The repository is an xv6 kernel whose scheduler has been replaced by a
multilevel feedback queue (`Project1`). This project models four parts of it
and proves what they are for.

**The scheduler (`Project1/proc.c`).** Five doubly linked queues over one
process table: three run levels, a sleep queue and a queue of unused slots. The
project has it twice. `Sched` is a state machine over values with one function
for each critical section under `ptable.lock`. `ProcQueue` and `KernelModel` are
the same code in place, link by link, on an array of table entries; every
critical section there is proved to do on the links what `Sched` does on
sequences, and `Kernel.PerformAll` carries that to whole runs. `SchedTable` says
column by column what every step does to every table entry, and `SchedQueues` what
it does to the order inside the queues; both are proved of every step, and with
the invariant they leave nothing of the next state open. On the state machine `SchedInvariant` and `SchedSteps` prove an invariant that every step
keeps: each slot is in exactly the queue its state demands, level 2 is sorted,
the lock holder is on the CPU or first in line, no child exit is lost, process
numbers are unique. `SchedRuns`, `SchedAccounts` and `SchedLocked` are about whole
runs: how long a process can wait with and without the scheduler lock, what the
lock excludes and when it ends, the account of a process after any number of
yields. `SchedOrder` and `SchedFifo` are about the order inside a level, insertion
by insertion and step by step, and `SchedFront` makes it first in, first served
over whole runs. `SchedLives` follows sleepers, children and process numbers, and
`SchedKilled` the killed flag of a slot.

**The log (`Project1/log.c`).** `LogDisk` has every block write of a commit and
of a recovery, and proves crash atomicity: stop the commit after any write, stop
any number of recoveries after any write, and the recovery that completes leaves
all of the transaction if its header got out and nothing of it otherwise.
`LogMachine` lifts this to runs of interleaved operations and to machines that
crash any number of times. Since `log_write` tests the log before it takes the
lock, its tests and its entry into the log are two steps, and other operations can
come between them. `LogAdmission` is about the space that `begin_op` reserves: when
the tests panic, when the log overflows in spite of them, and how many buffers it
all takes. `LogFile` is `log.c` statement by statement on the buffer cache, proved
to make exactly those writes and exactly those steps.

**The buffer cache (`Project1/bio.c` over `Project1/memide.c`).** `LruRing` and
`BufCache`: the circular list, the two searches of `bget`, flags, counts and
data of each buffer. A reader sees the last data written, a block of the disk
has at most one buffer, eviction takes the least recently used buffer that is
neither referenced nor dirty.

**Two small cores.** `Grep` proves the matcher of `Project1/grep.c` against the
language of the pattern. `PipeBuffer` proves `Project1/pipe.c` first-in
first-out for any interleaving, with counters that wrap at 32 bits.

Sizes are parameters: the number of process slots, of buffers, of blocks, the
place and size of the log, LOGSIZE and MAXOPBLOCKS. `Slots` and `Wrappers` hold
sequence lemmas and `Option`.

## Where the code and the natural claim differ

- With the scheduler lock a process can starve: one other process that locks,
  yields, unlocks and yields, again and again, keeps the boost from ever coming
  (`SchedLocked.Starvation`, from a state that `SchedLocked.VictimReachable`
  reaches). If nobody takes the lock the wait is bounded
  (`SchedRuns.BoundedWaiting`), and otherwise the bound grows by a period for each
  time the lock is taken (`SchedRuns.WaitingForLocks`).
- A lock holder that sleeps after more ticks than its quantum keeps them, and
  the test for equality in `yield` never fires for it again. This is the only
  step that breaks the quanta (`SchedAccounts.QuantaKeptExactly`,
  `SchedAccounts.NeverDemotedAgain`, `SchedLocked.QuantaExceeded`).
- `log_write` tests the length of the log before it looks for the block. With a
  log of LOGSIZE blocks, as `mkfs` makes it, operations that keep to MAXOPBLOCKS
  calls can reach its panic; with one block more they cannot; and if
  MAXOPBLOCKS bounds only the distinct blocks they can for every size
  (`LogAdmission.PanicFreeExactly`).
- `log_write` makes its tests before it takes `log.lock`
  (`Project1/log.c:218-223`), system calls run with interrupts on
  (`Project1/trap.c:24`), and a clock tick can switch processes in between
  (`Project1/trap.c:113-115`). So two operations can pass the test for the last
  free block of the log and then both enter theirs. On the log that `mkfs` makes
  this happens to operations that keep to MAXOPBLOCKS. The list then pins as many
  buffers as the log has blocks. If there are no more, as with NBUF, `bget` panics
  in the commit; with one more the commit writes over the block behind the log,
  which is the first block of inodes (`Project1/mkfs.c:102`), without any crash
  (`LogAdmission.OverfullCommit`). With one block of log more than LOGSIZE it cannot
  happen, and with fewer it can, down to a log of two blocks
  (`LogAdmission.StaysInLogExactly`). What is proved about runs
  in `LogMachine` and `LogFile` is about the runs that stay in the log; with the
  block more these are all runs of the source (`LogAdmission.SourceAtomic`,
  `Log.PerformSource`).
- That longer log then runs into the panic of `bget`: operations can pin LOGSIZE
  buffers or have them on their way into the log, and NBUF is LOGSIZE. While
  processes hold h other buffers, to read them or because they have not called
  `log_write` yet, there is always one more exactly if there are more than
  LOGSIZE + h (`LogAdmission.BuffersExactly`); `bget` finds one exactly if fewer are
  dirty or locked than there are (`BufCache.RecyclableExactly`). So neither panic
  nor the overflow is possible exactly with more than LOGSIZE log blocks and more
  than LOGSIZE + h buffers (`LogAdmission.NothingPanicsExactly`).
- `kill` finds unused slots as well: their number is 0, or that of a fork that
  failed. It marks them, `allocproc` does not clear the mark, and the next process
  in the slot is born killed (`SchedKilled.BornKilled`, from boot in
  `SchedKilled.KillZero`).

## Model

| member | source | states |
|---|---|---|
| `ProcQueue.Queue.constructor` | Project1/proc.c:32-39 | an empty queue is well linked over any table |
| `ProcQueue.Queue.Insert` | Project1/proc.c:47-80 | the links afterwards are those of the sequence with the new slot in front of base, at the tail for a null base; no other link and no other field changes |
| `ProcQueue.Queue.Delete` | Project1/proc.c:82-102 | the links afterwards are those of the sequence without the slot, in the old order; nothing else changes |
| `ProcQueue.Queue.Dequeue` | Project1/proc.c:104-124 | returns the head and leaves the rest linked, or null and no change on an empty queue |
| `ProcQueue.Queue.Merge` | Project1/proc.c:447-472 | the links afterwards are those of the two sequences in a row, the second queue is empty |
| `ProcQueue.LinkInWorks` | Project1/proc.c:47-80 | writing the four links of an insertion turns a well linked sequence into the one with the slot spliced in |
| `ProcQueue.LinkOutWorks` | Project1/proc.c:82-124 | writing the links of a removal turns a well linked sequence into the one with the slot cut out |
| `ProcQueue.JoinWorks` | Project1/proc.c:447-472 | writing the two links between tail and head joins two well linked sequences |
| `KernelModel.Kernel.constructor` | Project1/proc.c:126-143 | pinit: every slot unused and in the unused queue, in table order |
| `KernelModel.Kernel.UserInit` | Project1/proc.c:236-270 | from the blank table to the state with the init process in slot 0 at level 0 |
| `KernelModel.Kernel.SchedulerDispatch` | Project1/proc.c:520-534 | takes the head of the first level that is not empty and makes it the running process, exactly as the state machine does |
| `KernelModel.Kernel.SwitchedBack` | Project1/proc.c:538-547 | the check for 100 ticks after the switch: boost, lock released, counter zero; otherwise only the CPU is free |
| `KernelModel.Kernel.PriorityBoosting` | Project1/proc.c:474-494 | the three levels end up in level 0 in the order level 0, 1, 2, and they and all sleepers have a fresh account |
| `KernelModel.Kernel.MergeLevels` | Project1/proc.c:474-480 | splicing levels 1 and 2 and then level 0 leaves everything in level 0, in that order |
| `KernelModel.Kernel.HigherPriority` | Project1/proc.c:605-614 | finds the first entry of level 2 with a larger priority value, or null |
| `KernelModel.Kernel.YieldSwitch` | Project1/proc.c:642-678 | yield with the check after the switch is the yield step of the state machine |
| `KernelModel.Kernel.ChargeTick` | Project1/proc.c:654-663 | the statements of the quantum check compute the charge whose closed form is proved |
| `KernelModel.Kernel.Sleep` | Project1/proc.c:703-744 | sleep up to the switch, with the check after it, is the sleep step: the caller is asleep on the channel it named |
| `KernelModel.Kernel.Wakeup1` | Project1/proc.c:749-767 | the walk over the sleep queue, which unlinks while it walks, wakes every sleeper on the channel and no other |
| `KernelModel.Kernel.MlfqLock` | Project1/proc.c:594-603 | the lock step, also when the lock is taken |
| `KernelModel.Kernel.MlfqUnlock` | Project1/proc.c:579-592 | the unlock step, also when the lock is free |
| `KernelModel.Kernel.AllocProc` | Project1/proc.c:189-206 | takes the head of the unused queue with a fresh account and the next process number, or fails |
| `KernelModel.Kernel.GiveBack` | Project1/proc.c:210-214 | the failure paths, uninterrupted, put the slot at the end of the unused queue |
| `KernelModel.Kernel.FinishFork` | Project1/proc.c:317-338 | the child is a runnable child of the running process and joins level 0 |
| `KernelModel.Kernel.ExitProc` | Project1/proc.c:354-399 | exit wakes the parent, passes the children to init and wakes init for dead ones, and leaves a zombie; no other entry changes |
| `KernelModel.Kernel.WaitScan` | Project1/proc.c:403-445 | one turn of the loop of wait: reap the first dead child, give up without children or when killed, or sleep |
| `KernelModel.Kernel.ScanChildren` | Project1/proc.c:412-436 | the scan of wait finds the first dead child in table order, and else whether there is a child at all |
| `KernelModel.Kernel.PassChildren` | Project1/proc.c:382-390 | the loop of exit over the table gives exactly the children to init and wakes init for each dead one |
| `KernelModel.Kernel.KillPid` | Project1/proc.c:781-807 | kill marks the first slot with the number and makes it runnable if it sleeps, whatever it sleeps on; no other entry changes; -1 if there is no such slot |
| `KernelModel.Kernel.SetPriorityPid` | Project1/proc.c:616-639 | setPriority with its search for the last slot of that number, whose process gets the priority at every level and in every state but unused, and its two steps for a process in level 2; no other entry changes |
| `KernelModel.Kernel.FindPid` | Project1/proc.c:623-627 | the search runs on to the last slot of that number |
| `KernelModel.BaseStillRight` | Project1/proc.c:605-634 | the insertion point that setPriority looks up while the process is still linked with its new priority is the right one after the process is taken out, and never the process itself |
| `KernelModel.Kernel.Perform` | Project1/proc.c:126-840 | every critical section, done on the links, is its step of the state machine, keeps the invariant, and leaves every entry as the columns of `SchedTable` say |
| `KernelModel.Kernel.PerformAll` | Project1/proc.c:126-840 | for every run, the links at the end are those of the state that the state machine reaches |
| `SchedSteps.StepKeeps` | Project1/proc.c:126-840 | every enabled step keeps the whole invariant |
| `SchedSteps.BootInv` | Project1/proc.c:126-270 | the state after userinit has the invariant |
| `SchedSteps.WakeupKeeps` | Project1/proc.c:749-776 | wakeup keeps the invariant and makes exactly the sleepers on the channel runnable; the front of level 0 and everything else stays |
| `SchedSteps.ExitKeeps` | Project1/proc.c:354-399 | exit keeps the invariant, in particular no process keeps a parent that is gone and no one sleeps in wait with a dead child |
| `SchedSteps.WaitKeeps` | Project1/proc.c:403-445 | wait keeps the invariant, in particular it sleeps only with a child and none of them dead |
| `SchedSteps.SetPriorityKeeps` | Project1/proc.c:616-639 | setPriority keeps the invariant: on one CPU it deletes only from the queue that holds the process |
| `SchedSteps.InL2Exactly` | Project1/proc.c:625-631 | between critical sections in which a process runs, the test of level and state in setPriority holds exactly for the members of level 2 |
| `SchedSteps.BoostKeeps` | Project1/proc.c:474-494 | the boost with the release of the lock keeps the invariant, although it changes every account at once |
| `SchedSteps.DispatchKeeps` | Project1/proc.c:504-534 | a dispatch keeps the invariant |
| `SchedSteps.YieldKeeps` | Project1/proc.c:642-678 | a yield keeps the invariant, for the lock holder, for the process with the pending favour, and for the others |
| `SchedSteps.SleepKeeps` | Project1/proc.c:703-744 | sleep keeps the invariant, also when the sleeper held the lock |
| `SchedSteps.LockKeeps` | Project1/proc.c:594-603 | schedulerLock keeps the invariant |
| `SchedSteps.UnlockKeeps` | Project1/proc.c:579-592 | schedulerUnlock keeps the invariant, also with an old favour of another process pending |
| `SchedSteps.AllocKeeps` | Project1/proc.c:189-206 | allocproc keeps the invariant, in particular process numbers stay unique |
| `SchedSteps.ForkFailKeeps` | Project1/proc.c:304-315 | a failed fork keeps the invariant, if nobody interrupts its insertion |
| `SchedSteps.ForkFinishKeeps` | Project1/proc.c:317-338 | a completed fork keeps the invariant |
| `SchedSteps.KillKeeps` | Project1/proc.c:781-807 | kill keeps the invariant, in particular no killed process stays asleep in wait |
| `SchedRuns.Reachable` | Project1/proc.c:126-840 | every state of every run from boot has the invariant |
| `SchedTable.EntryStep` | Project1/proc.c:126-840 | what every step does to state, number, parent, channel, killed flag, priority, level and ticks of every slot, with the quanta 4, 6 and 8, the period 100 and the priority 3 in numbers |
| `SchedTable.SleepEntry` | Project1/proc.c:703-744 | the sleeper has the channel it named, and no other entry changes |
| `SchedTable.KillEntry` | Project1/proc.c:781-807 | the first slot with the number is killed and, if it was asleep on any channel, runnable; all others unchanged |
| `SchedTable.SetPriorityEntry` | Project1/proc.c:616-639 | the last slot with the number gets the priority if it is in use, at every level and in every state; all others unchanged |
| `SchedTable.ExitEntry` | Project1/proc.c:354-399 | the zombie, its children with init as their parent, its waiting parent and possibly init awake; all others unchanged |
| `SchedTable.ForkEntry` | Project1/proc.c:304-338 | the child is runnable with the running process as its parent, or unused again; all others unchanged |
| `SchedTable.WaitEntry` | Project1/proc.c:403-445 | the first dead child is cleared and gets number 0, or the caller is asleep in wait, or nothing changes |
| `SchedTable.YieldEntry` | Project1/proc.c:642-678 | every yield charges a tick, also for the lock holder and the process that last unlocked, who have no quantum; the boost resets everybody who runs, waits or sleeps |
| `SchedTable.CpuStep` | Project1/proc.c:126-840 | what every step does to the CPU and to the next process number |
| `SchedTable.UnusedStep` | Project1/proc.c:189-428 | slots are used again in the order in which they became free |
| `SchedTable.BootTable` | Project1/proc.c:126-270 | every entry and queue after userinit |
| `SchedQueues.NextIsFirst` | Project1/proc.c:520-531 | the process dispatched is in a lower level than, or in front of, every other that can run |
| `SchedQueues.BoostOrder` | Project1/proc.c:474-480 | after the boost level 0 comes first, then level 1, then level 2 in its order, all in level 0 |
| `SchedQueues.SleepOrder` | Project1/proc.c:703-807 | a step that blocks puts its process at the end of the sleep queue, every other step leaves those who still sleep in order |
| `SchedQueues.ExitOrder` | Project1/proc.c:378-390 | an exit that wakes both parent and init puts the parent in front |
| `SchedSteps.ReparentTable` | Project1/proc.c:382-390 | every entry after the loop of exit over the table |
| `SchedSteps.ReparentParents` | Project1/proc.c:382-390 | the loop of exit gives exactly the children of the dead process to init |
| `SchedLives.SleepsExactly` | Project1/proc.c:703-807 | over any run a process stays asleep on its channel if and only if nothing wakes it: a wakeup on the channel, a kill, or in wait the exit of a child |
| `SchedLives.NoLostWakeup` | Project1/proc.c:703-807 | a process that went to sleep on a channel is, after any run that has not woken it, woken by a wakeup on that channel and by a kill of its number |
| `SchedLives.WaitSleeps` | Project1/proc.c:433-442 | a caller of wait with children and none of them dead sleeps in wait |
| `SchedLives.ForkChild` | Project1/proc.c:317 | the child of a fork is a child of the process that forks |
| `SchedLives.ChildStays` | Project1/proc.c:317-445 | over any run a child stays one until its parent exits or it is reaped, and a dead one stays dead |
| `SchedLives.ExitSeen` | Project1/proc.c:378-393 | after an exit the parent has a dead child and is not asleep in wait, and init has the orphans |
| `SchedLives.NoLostExit` | Project1/proc.c:354-445 | over any run from the exit of a child until the parent takes it or exits: the parent never sleeps in wait, and its next wait takes a dead child at once |
| `SchedLives.ReapedForGood` | Project1/proc.c:189-807 | the number of a reaped process is never given again, and kill does not find it, over any run |
| `SchedEffects.NextRunnable` | Project1/proc.c:520-531 | the head of the first level that is not empty is a runnable process |
| `SchedEffects.TickStep` | Project1/proc.c:538-544 | the exact effect of each step on the tick counter: one more by a yield, zero by the boost or a successful lock, else none |
| `SchedEffects.FrontOfL0` | Project1/proc.c:504-678 | any step but a dispatch keeps level 0 as the front of the new level 0, and exactly the lock holder and the process that last unlocked go before it when they yield |
| `SchedEffects.AccountKept` | Project1/proc.c:579-672 | only yield and unlock change level and ticks of a living process, only they and setPriority its priority |
| `SchedEffects.StaysRunnable` | Project1/proc.c:504-807 | a process that waits for the CPU waits until it is dispatched |
| `SchedEffects.FreeLockStep` | Project1/proc.c:579-678 | a free lock stays free without schedulerLock, and a pending favour is used up exactly by a yield of its process |
| `SchedEffects.LockField` | Project1/proc.c:579-603 | a free lock is taken by schedulerLock only, and the lock never passes from one process to another |
| `SchedEffects.UnlockField` | Project1/proc.c:579-678 | the pending favour is given by a successful unlock only and used up by a yield of its process only |
| `SchedEffects.WaitBlocks` | Project1/proc.c:403-445 | a turn of wait sleeps exactly if there is a child, none is dead, and the caller is not killed |
| `SchedEffects.YieldTable` | Project1/proc.c:642-678 | what a yield does to each table entry: the charge or the head insertion for the running one, a fresh account for sleeping and runnable ones at the boost, else nothing |
| `SchedEffects.ExitTable` | Project1/proc.c:354-399 | what exit does to each table entry: exactly the children get init as parent, exactly the waiting parent and init with a dead child handed on wake up; it frees CPU and lock and nothing else |
| `SchedRuns.BoundedWaiting` | Project1/proc.c:474-550 | from any state of the invariant, in a run in which nobody takes the lock, a runnable process is dispatched before the yields that complete the period of 100 and then one dispatch for each slot have gone by; a hold or a favour left from before costs one dispatch more |
| `SchedRuns.WaitingForLocks` | Project1/proc.c:474-603 | in any run, the same with a period of yields more for each time the lock was taken before the boost and a period of dispatches more for each time after it |
| `SchedRuns.AheadFalls` | Project1/proc.c:504-603 | being in level 0 is kept by every step, every dispatch of another process brings its member nearer to the CPU, and only taking the lock sets it back, by no more than a period |
| `SchedRuns.InL0AfterPeriod` | Project1/proc.c:538-544 | once the yields have completed the period, which starts anew each time the lock is taken, every process that has waited throughout is in level 0 |
| `SchedRuns.FreeAfterPeriod` | Project1/proc.c:538-544 | if nobody takes the lock it is free after the period, whoever held it before |
| `SchedRuns.LockExcludes` | Project1/proc.c:594-603 | while a process holds the lock every dispatch is of the holder, and the hold is over before the tick counter reaches 100 |
| `SchedRuns.HoldEnds` | Project1/proc.c:343-445 | the hold ends exactly by unlock, by exit, by sleep, by a wait with children of which none is dead and no kill pending, or by the boost |
| `SchedLocked.Starvation` | Project1/proc.c:579-603 | for any k a run with 2k dispatches and k times the lock taken, none of the dispatches of the victim, which stays runnable with its entry unchanged, so that the game can go on |
| `SchedLocked.VictimReachable` | Project1/proc.c:579-603 | the state from which the victim starves is reached from boot |
| `SchedAccounts.QuantumClosedForm` | Project1/proc.c:642-672 | in an undisturbed lock-free run the account after y yields is (0, y) for y < 4, (1, y-4) for y < 10, then (2, (y-10) mod 8) with priority max(0, 3-(y-10)/8) |
| `SchedAccounts.ChargeAfter` | Project1/proc.c:655-663 | the quantum check of yield takes the closed form from y to y+1 |
| `SchedAccounts.QuantaKeptExactly` | Project1/proc.c:642-744 | a step keeps all processes but the holder inside their quantum if and only if it is not the blocking of a holder that has exceeded its own |
| `SchedAccounts.QuantaKeptWithoutLock` | Project1/proc.c:642-678 | in runs without schedulerLock ticks stay below 2 * level + 4 |
| `SchedAccounts.NeverDemotedAgain` | Project1/proc.c:655-663 | from an exceeded quantum any number of charges only adds ticks |
| `SchedLocked.QuantaExceeded` | Project1/proc.c:703-744 | a run from boot after which a process is outside its quantum without the lock |
| `SchedInvariant.ByPrioritySorted` | Project1/proc.c:605-614 | insertion in front of the first larger value keeps level 2 sorted |
| `SchedOrder.FifoAmongEquals` | Project1/proc.c:605-672 | an insertion puts the process behind all of its own priority and leaves the order inside every priority alone |
| `SchedOrder.OrderDetermined` | Project1/proc.c:605-672 | sortedness and the order inside each priority determine level 2 completely |
| `SchedFifo.StepFifo` | Project1/proc.c:605-807 | every step but the boost takes at most the process dispatched or moved out of the line of a priority value in level 2, keeps the order of the others, and puts newcomers at the end |
| `SchedFifo.SetPriorityLine` | Project1/proc.c:616-639 | setPriority moves its target, if that is in level 2, behind its new equals, and changes no other place in any line |
| `SchedFifo.DispatchLine` | Project1/proc.c:520-534 | a dispatch takes the process dispatched out of its line and changes nothing else |
| `SchedFifo.FirstServed` | Project1/proc.c:526-527 | from level 2 the process dispatched is the first in line of the smallest priority value |
| `SchedFifo.StepGrows` | Project1/proc.c:189-807 | every other step but the boost, exit with its wakeups included, only adds to the ends of level 1 and of the lines |
| `SchedFifo.WakeupLine` | Project1/proc.c:749-767 | one wakeup appends its sleepers to levels 0 and 1, and in level 2 to the lines of their priority values, in the order in which they went to sleep |
| `SchedFront.FirstInFirstServed` | Project1/proc.c:474-678 | in any run, boosts and scheduler lock included: of two processes in level 0, in level 1, or with equal priority values in level 2, the one behind is not dispatched before the one in front, unless setPriority moves one of them |
| `SchedFront.FrontStays` | Project1/proc.c:474-807 | no step lets the one behind overtake |
| `SchedFront.BoostFront` | Project1/proc.c:474-494 | the boost keeps the order of levels 1 and 2 when it moves them into level 0 |
| `SchedKilled.FlagStep` | Project1/proc.c:189-807 | exactly kill with the number of the slot and a fault set its flag, exactly the wait that reaps it clears it, and nothing else changes it |
| `SchedKilled.BornKilled` | Project1/proc.c:781-807 | a slot that kill has found, used or not, is marked in every run until its process is reaped |
| `SchedKilled.KillZero` | Project1/proc.c:781-807 | a run from boot in which kill(0) marks an unused slot and the child forked into it is runnable and killed |
| `LogDisk.CrashAtomic` | Project1/log.c:68-122 | a commit stopped after any number of its block writes, then any recoveries stopped after any number of theirs, then one that completes: the home blocks are those after the transaction if a header with a positive count was written, and those before it otherwise, and the log is clear |
| `LogDisk.CommitStopped` | Project1/log.c:176-202 | up to the header nothing of the transaction can be recovered, from the header on all of it |
| `LogDisk.RecoveryRestarts` | Project1/log.c:115-122 | a recovery stopped anywhere leaves a disk that recovers to the very same disk |
| `LogDisk.RecoverAgain` | Project1/log.c:115-122 | recovering a clean disk changes nothing |
| `LogDisk.HeadOfBlock` | Project1/log.c:84-113 | read_head gives back the block numbers that write_head has written, whatever else is in the block |
| `LogDisk.CommitCompletes` | Project1/log.c:192-202 | a commit that is not stopped leaves the home blocks of the transaction and a clear log |
| `LogDisk.ReplayTwice` | Project1/log.c:68-82 | doing a list of block writes again after any part of it ends in the same disk |
| `LogMachine.RunAtomic` | Project1/log.c:68-202 | a run of interleaved operations that stays in the log, stopped at any block write, recovers to what the first p steps have written, where no operation is under way after these steps and they include every commit whose header was written |
| `LogMachine.LivesAtomic` | Project1/log.c:54-202 | over any number of crashes and restarts of such runs the home blocks are what the kept first parts of the runs have written, one after the other, and every kept part ends with no operation under way and has every transaction whose header was written |
| `LogMachine.RunStopped` | Project1/log.c:176-202 | the same from any state in the middle of a run |
| `LogMachine.ViewIsContents` | Project1/log.c:204-233 | in runs that stay in the log reads see exactly the data written, before, across and after commits |
| `LogMachine.NothingBeforeCommit` | Project1/log.c:204-233 | no block is written to disk before the commit |
| `LogMachine.CommitKeeps` | Project1/log.c:192-202 | a commit keeps the invariant and changes no home block as readers see it |
| `LogMachine.NeverEndsCommitting` | Project1/log.c:150-153 | the panic of end_op is unreachable |
| `LogMachine.RunReplays` | Project1/log.c:176-202 | the disk after a run is the disk before it with the block writes of the run, so that every first part of them is a disk that a crash can leave |
| `LogAdmission.AdmissionLeavesRoom` | Project1/log.c:124-141 | for operations that keep to MAXOPBLOCKS, by distinct blocks or by calls, the logged blocks and what the open operations have left never exceed LOGSIZE |
| `LogAdmission.AdmitsExactly` | Project1/log.c:130-136 | an operation is admitted if and only if no commit is under way and the log has room for MAXOPBLOCKS more blocks of every open operation and of the new one |
| `LogAdmission.PanicFreeExactly` | Project1/log.c:213-221 | bounded by calls, the tests of log_write never panic if and only if the log has more than LOGSIZE blocks; bounded by distinct blocks they can for every size |
| `LogAdmission.StaysInLogExactly` | Project1/log.c:213-233 | operations that keep to MAXOPBLOCKS, by calls or by blocks, and can be interrupted between the tests and the entry into the log, never enter more blocks than the log on disk has room for if and only if it has more than LOGSIZE blocks |
| `LogAdmission.OverfullCommit` | Project1/log.c:176-233 | on any shorter log of two blocks or more, a run after which the list has one block too many and pins as many buffers as the log has blocks: if there are more buffers, write_log then changes the home block behind the log, which no operation has written, and no later write to the header or to the logged blocks brings it back |
| `LogAdmission.SourceStays` | Project1/log.c:124-233 | on a log of more than LOGSIZE blocks every run of the source is a run of the machine |
| `LogAdmission.SourceAtomic` | Project1/log.c:54-233 | on such a log, for all that the source does: over any number of crashes and restarts the home blocks are what the kept first parts of the runs have written, and every kept part is whole |
| `LogAdmission.PinnedFit` | Project1/log.c:124-141 | the blocks in the log together with those on their way into it are never more than LOGSIZE |
| `LogAdmission.FrugalBuffers` | Project1/log.c:124-141 | LOGSIZE buffers are enough for operations that keep to MAXOPBLOCKS, as long as no other buffer is held |
| `LogAdmission.BuffersExactly` | Project1/bio.c:58-93 | with at most h buffers held otherwise, operations that keep to MAXOPBLOCKS can never have all buffers if and only if there are more than LOGSIZE + h; for logs of LOGSIZE - 1 blocks and more |
| `LogAdmission.NothingPanicsExactly` | Project1/log.c:213-233 | for operations bounded by calls, log_write does not panic, the log does not overflow, and a buffer is left beside h held otherwise, if and only if there are more than LOGSIZE blocks in the log and more than LOGSIZE + h buffers |
| `LruRing.UnlinkWorks` | Project1/bio.c:132-133 | relinking the neighbours of a buffer leaves the ring without it |
| `LruRing.FrontWorks` | Project1/bio.c:134-137 | the assignments put the buffer right behind the head of the ring |
| `BufCache.AtMostOne` | Project1/bio.c:58-93 | a block of device 1 has at most one buffer |
| `BufCache.SomeRecyclable` | Project1/bio.c:78-92 | with fewer dirty and locked blocks than buffers bget finds a buffer |
| `BufCache.NoneRecyclable` | Project1/bio.c:78-92 | with as many dirty and locked blocks as buffers every buffer is dirty or locked and bget finds none |
| `BufCache.RecyclableExactly` | Project1/bio.c:78-92 | while no buffer is waited for, there is a buffer to take exactly if fewer blocks are dirty or locked than there are buffers |
| `BufCache.RecycleKeeps` | Project1/bio.c:82-87 | taking a buffer for another block loses no data: it was on disk |
| `BufCache.VictimOldest` | Project1/bio.c:78-140 | after any releases, no buffer that bget could have taken instead was released for the last time before the one it takes |
| `BufCache.BufferCache.constructor` | Project1/bio.c:38-56 | all buffers in the ring, unused, and reads see the disk |
| `BufCache.BufferCache.Find` | Project1/bio.c:68-76 | the walk from the head finds the buffer of the block, or there is none |
| `BufCache.BufferCache.FindVictim` | Project1/bio.c:78-91 | the walk from the tail finds the least recently used buffer that is neither referenced nor dirty, or there is none |
| `BufCache.BufferCache.Bget` | Project1/bio.c:61-93 | the cached buffer with one more reference, or else the least recently used buffer that is neither referenced nor dirty, emptied for the block |
| `BufCache.BufferCache.Bread` | Project1/bio.c:96-106 | a locked buffer with the last data written to the block, or, if another process has it locked, one more reference to it and the caller asleep; disk, dirty blocks and all other locked buffers unchanged |
| `BufCache.BufferCache.Iderw` | Project1/memide.c:38-60 | a dirty buffer goes to disk and is clean, an invalid one is read and is valid |
| `BufCache.BufferCache.Bwrite` | Project1/bio.c:109-116 | exactly this one block write, after which the buffer is clean |
| `BufCache.BufferCache.Unlock` | Project1/bio.c:120-125 | the lock is free and the reference still counts |
| `BufCache.BufferCache.Unreference` | Project1/bio.c:127-140 | one reference less, also if another process has locked the buffer again; with the last one the buffer is most recently used |
| `BufCache.BufferCache.Brelse` | Project1/bio.c:120-141 | both in a row; every other locked buffer stays as it is |
| `LogFile.Log.constructor` | Project1/log.c:53-66 | after initlog the disk is the recovered disk, the block writes are those of the recovery, and no operation is open |
| `LogFile.Log.ReadHead` | Project1/log.c:84-96 | the block numbers of the header on disk |
| `LogFile.Log.FillHead` | Project1/log.c:104-110 | the loop fills in count and numbers and leaves the rest of the block |
| `LogFile.Log.WriteHead` | Project1/log.c:98-113 | one block write, of the header with the current count and numbers over the old rest of the block |
| `LogFile.Log.WriteLog` | Project1/log.c:176-190 | writes the cached data of each logged block to its log block, in order, and nothing else |
| `LogFile.Log.InstallTrans` | Project1/log.c:68-82 | writes each log block home, in order, after which no buffer is dirty |
| `LogFile.Log.CommitTransaction` | Project1/log.c:192-202 | the block writes are exactly those of the crash theorems; afterwards no buffer is dirty and reads see the disk |
| `LogFile.Log.BeginOperation` | Project1/log.c:124-141 | one turn of begin_op is the begin step, and the operation sleeps exactly if there may not be room |
| `LogFile.Log.PassesTests` | Project1/log.c:218-221 | true exactly if neither test of log_write panics |
| `LogFile.Log.Record` | Project1/log.c:223-232 | the block is logged once and pinned, also if the log has become full since the tests |
| `LogFile.Log.FindLogged` | Project1/log.c:224-227 | the loop finds the block among the logged ones, or it is not logged |
| `LogFile.Log.TestBlock` | Project1/log.c:204-221 | reading and changing a block and passing the tests is the test step: readers will see the change, its buffer is locked, the log and the disk are as before |
| `LogFile.Log.AppendBlock` | Project1/log.c:223-233 | entering the block and releasing its buffer is the append step, and nothing reaches the disk |
| `LogFile.Log.ReadBlock` | Project1/bio.c:95-141 | returns the last data written and changes nothing that can be seen, whatever else operations have in hand |
| `LogFile.Log.EndOperation` | Project1/log.c:145-163 | the end step; committing only with no operation left |
| `LogFile.Log.CommitAll` | Project1/log.c:165-173 | the commit step and its block writes |
| `LogFile.Log.PerformAll` | Project1/log.c:124-233 | for every run that stays in the log and in which bget finds buffers: cache, log and disk end in the state of the machine, the block writes are its trace, the dirty buffers are exactly those of the logged blocks and the locked ones those of the blocks in hand |
| `LogFile.Log.PerformSource` | Project1/log.c:124-233 | the same for every run of operations that keep to MAXOPBLOCKS, with nothing to assume about log and buffers but a log of more than LOGSIZE blocks |
| `Grep.Match` | Project1/grep.c:72-82 | true if and only if some part of the text, at its beginning for a pattern with '^', is in the language of the pattern |
| `Grep.MatchHere` | Project1/grep.c:84-96 | true if and only if some beginning of the text, all of it for a pattern with '$', is in the language of the pattern |
| `Grep.MatchStar` | Project1/grep.c:98-106 | true if and only if the rest of the pattern matches after some run of characters that fit the starred one |
| `Grep.InStar` | Project1/grep.c:98-106 | the language of a starred character is the runs of characters that fit it |
| `Grep.HereStar` | Project1/grep.c:89-90 | the language of a starred character followed by a pattern is reached by taking some run of fitting characters |
| `Grep.HereOne` | Project1/grep.c:93-94 | a plain pattern character consumes one fitting character of the text |
| `PipeBuffer.Pipe.Write` | Project1/pipe.c:78-98 | the bytes from i on enter in order until all are in, or the pipe is full and the writer sleeps or fails, exactly under the tests of the source |
| `PipeBuffer.Pipe.Read` | Project1/pipe.c:100-121 | the oldest bytes leave in order, as many as asked for or there are; on an empty pipe that is open for writing it sleeps, or returns -1 exactly if the reader is killed |
| `PipeBuffer.Pipe.Close` | Project1/pipe.c:59-75 | closes one end, and frees the pipe exactly with the second |
| `PipeBuffer.Pipe.Interleave` | Project1/pipe.c:59-121 | in any order of turns, the bytes read followed by those in the ring are the bytes that were there followed by those written |
| `PipeBuffer.CountersTell` | Project1/pipe.c:85-114 | the tests for full and empty on wrapping counters are right, and the occupancy is their difference modulo 2^32 |

## Left out

- More than one CPU. `Project1/bootxv6.sh:1` starts one. With several, a lock
  holder parked in level 0 can pass the test for level 2 in setPriority.
- Spinlocks, interrupts and the context switch itself. A critical section is one
  step, a dispatch is one step, and the tidying up that sleep does when it is
  resumed is part of the dispatch.
- fork between its critical sections. It is an allocation and later a finish or
  a failure, and any running process may finish any slot under construction,
  which allows more runs than the source.
- KernelModel.Kernel.GiveBack: the failure paths of allocproc and fork insert into
  the unused queue without the lock (`Project1/proc.c:210-214`, `306-309`). An
  interrupt in the middle of that insertion breaks the partition of the slots;
  here it is one step that nobody interrupts.
- SchedSteps.ForkFailKeeps: the same, on the state machine.
- KernelModel.Kernel.WaitScan: one turn of the loop of wait. A process that was
  woken scans again in a later step.
- LogFile.Log.BeginOperation: one turn of the loop of begin_op. An operation that
  sleeps tries again in a later step.
- schedulerLock and schedulerUnlock with the wrong password. They call exit,
  which is a step of its own.
- The panic of exit for the init process, and init dying: no step does that.
- Width of int for process numbers, ticks, priorities and counts in `proc.c`:
  the model has integers without bound.
- Names, stacks, page tables, files and trap frames of a process, and
  sched, forkret, growproc, procdump and the user programs.
- Links as pointers: a pointer to a table entry or to a buffer is its slot
  number in a fixed array.
- Readers of the buffer cache between two block writes of a commit. A commit is
  one step for other processes; a crash inside it is not.
- BufCache.BufferCache.Brelse: takes it as given that a buffer whose data was
  changed has been written or logged, as `Project1/bio.c:8-15` asks of callers.
- Interrupts inside the steps of an operation. Reading and changing a block, and
  passing the tests, is one step; entering it in the log and releasing it is
  another. In both the buffer is locked, and no commit can come in between.
- Processes waiting for a locked buffer appear in `BufCache` as references of
  an unlocked or locked buffer. In `LogMachine` and `LogFile` a step on a block
  that an operation has in hand is possible only after its release.
- LogFile.Log.TestBlock: takes it as given that bget finds a buffer;
  `LogAdmission.FrugalBuffers` says when it does.
- LogFile.Log.ReadBlock: the same, and a block that no operation has in hand.
- LogFile.Log.constructor: read_head trusts the header on disk, so the model takes
  one with at most LOGSIZE blocks of the home area as given. Operations write
  home blocks only.
- Running out of buffers: bget takes it as given that there is one;
  `BufCache.RecyclableExactly` and `LogAdmission.BuffersExactly` say when.
- What the source does after the log has overflowed, beyond
  `LogAdmission.OverfullCommit`.
- Block writes that are not atomic, and a device other than 1.
- The superblock: initlog gets its fields as a parameter.
- Files, directories, inodes and the bitmap (`Project1/fs.c`), page tables and
  frames (`Project1/vm.c`, `Project1/kalloc.c`), `Project1/umalloc.c`,
  `Project1/sh.c`.
- grep's loop over its input, and characters as bytes: the matcher works on
  strings that end at their first NUL.
- Copying between a pipe and user memory, negative counts, and freeing the pipe.
- `Project2`.
