// Sleep, children and numbers, run by run.
module SchedLives {
  import opened Wrappers
  import opened Sched
  import opened SchedInvariant
  import opened SchedSteps
  import opened SchedEffects
  import opened SchedTable
  import opened SchedRuns

  // -------------------------------------------------------------------- sleep

  predicate AsleepOn(s: State, p: nat, c: Chan) {
    p < |s.procs| && s.procs[p].state == SLEEPING && s.procs[p].chan == c
  }

  // A sleeper goes on sleeping, on the same channel, exactly if the step does not
  // wake it, and otherwise it can run.
  lemma SleeperStep(s: State, st: Step, p: nat, c: Chan)
    requires Inv(s) && Enabled(s, st) && AsleepOn(s, p, c)
    ensures if Wakes(s, st, p) then Apply(s, st).procs[p].state == RUNNABLE else AsleepOn(Apply(s, st), p, c)
  {
    hide Partition, Sorted, LockOk, Family, PidsOk, EmbryosOk, Apply, Wakes;
    EntryStep(s, st, p);
    NotElsewhere(s, st, p);
  }

  lemma NotElsewhere(s: State, st: Step, p: nat)
    requires Inv(s) && Enabled(s, st) && p < |s.procs| && s.procs[p].state == SLEEPING
    ensures !Runs(s, p) && !Serves(s, st, p) && !Takes(s, st, p) && !Reaps(s, st, p)
    ensures st != DoForkFinish(p) && st != DoForkFail(p)
  {
    if CanDispatch(s) { NextRunnable(s); }
    assert p in s.unused <==> Belongs(s.procs, s.lock, InUnused, p);
  }

  // No step of the run wakes p.
  ghost predicate NeverWoken(s: State, tr: seq<Step>, p: nat)
    requires Wf(s) && CanRun(s, tr)
    decreases |tr|
  {
    tr == [] || (!Wakes(s, tr[0], p) && NeverWoken(Apply(s, tr[0]), tr[1..], p))
  }

  ghost predicate AsleepThroughout(s: State, tr: seq<Step>, p: nat, c: Chan)
    requires Wf(s) && CanRun(s, tr)
    decreases |tr|
  {
    AsleepOn(s, p, c) && (tr == [] || AsleepThroughout(Apply(s, tr[0]), tr[1..], p, c))
  }

  // A process sleeps until a wakeup on its channel or a kill, or in wait() until a
  // child exits; nothing else ends its sleep, and each of these does.
  lemma {:induction false} SleepsExactly(s: State, tr: seq<Step>, p: nat, c: Chan)
    requires Inv(s) && CanRun(s, tr) && AsleepOn(s, p, c)
    ensures AsleepThroughout(s, tr, p, c) <==> NeverWoken(s, tr, p)
    ensures NeverWoken(s, tr, p) ==> AsleepOn(Exec(s, tr), p, c)
    decreases |tr|
  {
    hide Partition, Sorted, CpuOk, LockOk, Family, PidsOk, EmbryosOk, Apply, Wakes;
    if tr != [] {
      SleeperStep(s, tr[0], p, c);
      if !Wakes(s, tr[0], p) {
        StepKeeps(s, tr[0]);
        SleepsExactly(Apply(s, tr[0]), tr[1..], p, c);
      } else {
        Awake(Apply(s, tr[0]), tr[1..], p, c);
      }
    }
  }

  lemma Awake(s: State, tr: seq<Step>, p: nat, c: Chan)
    requires Wf(s) && CanRun(s, tr) && p < |s.procs| && s.procs[p].state == RUNNABLE
    ensures !AsleepThroughout(s, tr, p, c)
  {
  }

  // No lost wakeup. A process that has gone to sleep on a is still asleep on a
  // after any run that has not woken it, and then a wakeup on a wakes it, and so
  // does a kill of its number.
  lemma NoLostWakeup(s: State, a: int, tr: seq<Step>)
    requires Inv(s) && s.cur.Some? && CanRun(SleepOn(s, Address(a)), tr)
    requires NeverWoken(SleepOn(s, Address(a)), tr, s.cur.value)
    ensures var me := s.cur.value; var u := Exec(SleepOn(s, Address(a)), tr);
      && AsleepOn(u, me, Address(a))
      && Wakeup(u, Address(a)).procs[me].state == RUNNABLE
      && Kill(u, u.procs[me].pid).procs[me].state == RUNNABLE
  {
    hide Partition, Sorted, CpuOk, LockOk, Family, EmbryosOk, PidsOk, SleepOn, Wakeup, Kill, NeverWoken,
      AsleepThroughout, CanRun, Exec;
    var me := s.cur.value;
    var t := SleepOn(s, Address(a));
    StepKeeps(s, DoSleep(a));
    SleepEntry(s, Address(a), me);
    SleepsExactly(t, tr, me, Address(a));
    RunKeeps(t, tr);
    var u := Exec(t, tr);
    WakeupKeeps(u, Address(a));
    KilledWakes(u, me);
  }

  lemma KilledWakes(s: State, p: nat)
    requires Inv(s) && p < |s.procs| && s.procs[p].state == SLEEPING
    ensures Kill(s, s.procs[p].pid).procs[p] == s.procs[p].(killed := true, state := RUNNABLE)
  {
    hide Partition, Sorted, CpuOk, LockOk, Family, EmbryosOk;
    var k := FirstPid(s.procs, s.procs[p].pid, 0);
    assert k == p;
  }

  // ----------------------------------------------------------------- children

  // The process that waits without a dead child to take sleeps in wait().
  lemma WaitSleeps(s: State)
    requires Inv(s) && s.cur.Some? && CanWait(s, s.cur.value)
    ensures Waiting(Wait(s), s.cur.value)
  {
    hide Partition, Sorted, CpuOk, LockOk, Family, PidsOk, EmbryosOk, Wait;
    EntryStep(s, DoWait, s.cur.value);
    CannotReap(s);
  }

  lemma CannotReap(s: State)
    requires Inv(s) && s.cur.Some?
    ensures !Reaps(s, DoWait, s.cur.value) && !Serves(s, DoWait, s.cur.value)
  {
    RunningFacts(s);
  }

  // The child of a fork is a child of the process that forks.
  lemma ForkChild(s: State, e: nat)
    requires Inv(s) && Enabled(s, DoForkFinish(e))
    ensures IsChild(Apply(s, DoForkFinish(e)), s.cur.value, e)
  {
    hide Core, Apply;
    EntryStep(s, DoForkFinish(e), e);
  }

  // In the run q does not exit, and nobody takes the dead c away.
  predicate Unclaimed(s: State, tr: seq<Step>, q: nat, c: nat)
    requires Wf(s) && CanRun(s, tr)
    decreases |tr|
  {
    tr == [] || (!Reaps(s, tr[0], c) && !(tr[0].DoExit? && Runs(s, q)) && Unclaimed(Apply(s, tr[0]), tr[1..], q, c))
  }

  lemma ChildStep(s: State, st: Step, q: nat, c: nat)
    requires Inv(s) && Enabled(s, st) && IsChild(s, q, c) && !Reaps(s, st, c) && !(st.DoExit? && Runs(s, q))
    ensures IsChild(Apply(s, st), q, c)
    ensures IsDeadChild(s, q, c) ==> IsDeadChild(Apply(s, st), q, c)
  {
    hide Partition, Sorted, LockOk, PidsOk, EmbryosOk, Apply, Wakes;
    EntryStep(s, st, c);
    ForkedAlready(s, st, q, c);
  }

  lemma ForkedAlready(s: State, st: Step, q: nat, c: nat)
    requires Inv(s) && Enabled(s, st) && IsChild(s, q, c)
    ensures st != DoForkFinish(c) && st != DoForkFail(c) && !Takes(s, st, c)
    ensures s.procs[c].state == ZOMBIE ==> !Runs(s, c) && !Serves(s, st, c) && !Wakes(s, st, c)
  {
    assert ParentOk(s, c);
    if CanDispatch(s) { NextRunnable(s); }
    assert c in s.unused <==> Belongs(s.procs, s.lock, InUnused, c);
  }

  // A child stays one until its parent exits or it is reaped.
  lemma {:induction false} ChildStays(s: State, tr: seq<Step>, q: nat, c: nat)
    requires Inv(s) && CanRun(s, tr) && IsChild(s, q, c) && Unclaimed(s, tr, q, c)
    ensures IsChild(Exec(s, tr), q, c)
    ensures IsDeadChild(s, q, c) ==> IsDeadChild(Exec(s, tr), q, c)
    decreases |tr|
  {
    hide Partition, Sorted, CpuOk, LockOk, Family, PidsOk, EmbryosOk, Apply, Reaps;
    if tr != [] {
      ChildStep(s, tr[0], q, c);
      StepKeeps(s, tr[0]);
      ChildStays(Apply(s, tr[0]), tr[1..], q, c);
    }
  }

  // exit() leaves a dead child to the parent, wakes the parent if that sleeps in
  // wait(), and makes the children of the dead process children of init.
  lemma ExitSeen(s: State, q: nat)
    requires Inv(s) && s.cur.Some? && s.cur.value != s.init && IsChild(s, q, s.cur.value)
    ensures IsDeadChild(Exit(s), q, s.cur.value)
    ensures Waiting(s, q) ==> Exit(s).procs[q].state == RUNNABLE
    ensures forall c: nat :: IsChild(s, s.cur.value, c) ==> IsChild(Exit(s), s.init, c)
  {
    hide Partition, Sorted, LockOk, PidsOk, EmbryosOk, Exit;
    var me := s.cur.value;
    assert ParentOk(s, me);
    RunningFacts(s);
    ExitTable(s);
    forall c: nat | IsChild(s, me, c) ensures IsChild(Exit(s), s.init, c) {
      assert ParentOk(s, c);
    }
  }

  // No lost exit. From the exit of a child until the parent takes it, or exits
  // itself, the parent is never asleep in wait(), and whenever it calls wait()
  // that takes a dead child at once.
  lemma NoLostExit(s: State, q: nat, tr: seq<Step>)
    requires Inv(s) && s.cur.Some? && s.cur.value != s.init && IsChild(s, q, s.cur.value)
    requires CanRun(Exit(s), tr) && Unclaimed(Exit(s), tr, q, s.cur.value)
    ensures var u := Exec(Exit(s), tr);
      && IsDeadChild(u, q, s.cur.value) && !Waiting(u, q)
      && (u.cur == Some(q) ==> exists k: nat :: Reaps(u, DoWait, k) && IsDeadChild(u, q, k))
  {
    hide Partition, Sorted, CpuOk, LockOk, PidsOk, EmbryosOk, Exit, Exec, CanRun, Unclaimed;
    var c := s.cur.value;
    ExitSeen(s, q);
    ExitKeeps(s);
    ChildStays(Exit(s), tr, q, c);
    RunKeeps(Exit(s), tr);
    var u := Exec(Exit(s), tr);
    assert WaitOk(u, q);
    if u.cur == Some(q) {
      assert Reaps(u, DoWait, FirstDead(u, q, 0));
    }
  }

  // --------------------------------------------------------- process numbers

  // No slot has the number.
  predicate Gone(s: State, pid: int) {
    forall k | 0 <= k < |s.procs| :: s.procs[k].pid != pid
  }

  lemma GoneStep(s: State, st: Step, pid: int)
    requires Inv(s) && Enabled(s, st) && 0 < pid < s.nextpid && Gone(s, pid)
    ensures Gone(Apply(s, st), pid) && pid < Apply(s, st).nextpid
  {
    hide Partition, Sorted, CpuOk, LockOk, Family, PidsOk, EmbryosOk, Apply, Wakes;
    CpuStep(s, st);
    forall k: nat | k < |s.procs| ensures Apply(s, st).procs[k].pid != pid {
      EntryStep(s, st, k);
    }
  }

  lemma {:induction false} StaysGone(s: State, tr: seq<Step>, pid: int)
    requires Inv(s) && CanRun(s, tr) && 0 < pid < s.nextpid && Gone(s, pid)
    ensures Gone(Exec(s, tr), pid)
    decreases |tr|
  {
    hide Partition, Sorted, CpuOk, LockOk, Family, PidsOk, EmbryosOk, Apply, Gone;
    if tr != [] {
      GoneStep(s, tr[0], pid);
      StepKeeps(s, tr[0]);
      StaysGone(Apply(s, tr[0]), tr[1..], pid);
    }
  }

  // The number of a reaped process is never given again, and kill() does not find
  // it any more.
  lemma ReapedForGood(s: State, k: nat, tr: seq<Step>)
    requires Inv(s) && s.cur.Some? && Reaps(s, DoWait, k) && CanRun(Wait(s), tr)
    ensures var u := Exec(Wait(s), tr); var pid := s.procs[k].pid;
      Gone(u, pid) && FirstPid(u.procs, pid, 0) == |u.procs| && Kill(u, pid) == u
  {
    hide Partition, Sorted, CpuOk, LockOk, Family, EmbryosOk, Exec, CanRun, Wait;
    var pid := s.procs[k].pid;
    var t := Wait(s);
    StepKeeps(s, DoWait);
    CpuStep(s, DoWait);
    DeadHasNumber(s, k);
    forall j: nat | j < |s.procs| ensures t.procs[j].pid != pid {
      EntryStep(s, DoWait, j);
    }
    StaysGone(t, tr, pid);
  }

  lemma DeadHasNumber(s: State, k: nat)
    requires Inv(s) && s.cur.Some? && Reaps(s, DoWait, k)
    ensures 0 < s.procs[k].pid < s.nextpid
    ensures forall j: nat :: j < |s.procs| && j != k ==> s.procs[j].pid != s.procs[k].pid
  {
  }
}
