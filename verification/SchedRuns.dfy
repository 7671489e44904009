// Properties of whole runs of the scheduler.
module SchedRuns {
  import opened Wrappers
  import opened Slots
  import opened Sched
  import opened SchedInvariant
  import opened SchedSteps
  import opened SchedEffects

  predicate CanRun(s: State, tr: seq<Step>)
    requires Wf(s)
    decreases |tr|
  {
    tr == [] || (Enabled(s, tr[0]) && CanRun(Apply(s, tr[0]), tr[1..]))
  }

  function Exec(s: State, tr: seq<Step>): (r: State)
    requires Wf(s) && CanRun(s, tr)
    ensures Wf(r) && |r.procs| == |s.procs|
    decreases |tr|
  {
    if tr == [] then s else Exec(Apply(s, tr[0]), tr[1..])
  }

  lemma {:induction false} RunKeeps(s: State, tr: seq<Step>)
    requires Inv(s) && CanRun(s, tr)
    ensures Inv(Exec(s, tr))
    decreases |tr|
  {
    if tr != [] {
      StepKeeps(s, tr[0]);
      RunKeeps(Apply(s, tr[0]), tr[1..]);
    }
  }

  // Every state that a machine of n slots can get into.
  lemma Reachable(n: nat, tr: seq<Step>)
    requires n > 0 && CanRun(Boot(n), tr)
    ensures Inv(Exec(Boot(n), tr))
  {
    BootInv(n);
    RunKeeps(Boot(n), tr);
  }

  lemma {:induction false} RunConcat(s: State, a: seq<Step>, b: seq<Step>)
    requires Wf(s) && CanRun(s, a) && CanRun(Exec(s, a), b)
    ensures CanRun(s, a + b) && Exec(s, a + b) == Exec(Exec(s, a), b)
    decreases |a|
  {
    if a == [] {
      assert a + b == b;
    } else {
      assert (a + b)[1..] == a[1..] + b;
      RunConcat(Apply(s, a[0]), a[1..], b);
    }
  }

  // --------------------------------------------------------- bounded waiting

  function Yields(tr: seq<Step>): (r: nat) {
    if tr == [] then 0 else (if tr[0].DoYield? then 1 else 0) + Yields(tr[1..])
  }

  function Dispatches(tr: seq<Step>): (r: nat) {
    if tr == [] then 0 else (if tr[0].DoDispatch? then 1 else 0) + Dispatches(tr[1..])
  }

  ghost predicate NeverLocks(tr: seq<Step>) {
    forall i :: 0 <= i < |tr| ==> !tr[i].DoLock?
  }

  // Some step of the run puts p on the CPU.
  predicate Served(s: State, tr: seq<Step>, p: nat)
    requires Wf(s) && CanRun(s, tr)
    decreases |tr|
  {
    tr != [] && ((tr[0].DoDispatch? && Next(s) == p) || Served(Apply(s, tr[0]), tr[1..], p))
  }

  function IndexOf(q: seq<nat>, p: nat): (k: nat)
    requires p in q
    ensures k < |q| && q[k] == p
  {
    if q[0] == p then 0 else 1 + IndexOf(q[1..], p)
  }

  lemma {:induction false} IndexOfPrefix(q: seq<nat>, r: seq<nat>, p: nat)
    requires p in q && q <= r
    ensures IndexOf(r, p) == IndexOf(q, p)
  {
    if q[0] != p {
      assert q[1..] <= r[1..];
      IndexOfPrefix(q[1..], r[1..], p);
    }
  }

  // The step takes the scheduler lock.
  predicate TakesLock(s: State, st: Step) {
    st.DoLock? && s.lock == None
  }

  // How often the run takes the scheduler lock.
  function Locks(s: State, tr: seq<Step>): (n: nat)
    requires Wf(s) && CanRun(s, tr)
    decreases |tr|
  {
    if tr == [] then 0 else (if TakesLock(s, tr[0]) then 1 else 0) + Locks(Apply(s, tr[0]), tr[1..])
  }

  lemma {:induction false} NoLocks(s: State, tr: seq<Step>)
    requires Wf(s) && CanRun(s, tr) && NeverLocks(tr)
    ensures Locks(s, tr) == 0
    decreases |tr|
  {
    if tr != [] { NoLocks(Apply(s, tr[0]), tr[1..]); }
  }

  // How many dispatches can come before that of p, a member of L0, if nobody
  // takes the lock: of those in front of it, of the process that last unlocked,
  // and of the holder for what is left of the period.
  function Ahead(s: State, p: nat): (n: int)
    requires p in s.l0
  {
    IndexOf(s.l0, p) + (if s.unlock.Some? then 1 else 0) + if s.lock.Some? then BOOST_TICKS - s.gticks else 0
  }

  // Being in L0 is kept, every dispatch brings p nearer, and only taking the
  // lock sets it back, by no more than a period.
  lemma AheadFalls(s: State, st: Step, p: nat)
    requires Inv(s) && Enabled(s, st) && p in s.l0 && !(st.DoDispatch? && Next(s) == p)
    ensures var t := Apply(s, st);
      p in t.l0 && Ahead(t, p) + (if st.DoDispatch? then 1 else 0)
                   <= Ahead(s, p) + if TakesLock(s, st) then 100 else 0
  {
    hide Partition, Sorted, Family, PidsOk, EmbryosOk, Yield, SleepOn, Wait, Exit, Alloc, ForkFail, ForkFinish, Wakeup,
      Kill, SetPriority, Fault;
    var t := Apply(s, st);
    UnlockField(s, st);
    LockField(s, st);
    TickStep(s, st);
    if st.DoDispatch? {
      assert t.l0 == s.l0[1..];
    } else {
      FrontOfL0(s, st);
      hide Apply;
      if s.l0 <= t.l0 {
        IndexOfPrefix(s.l0, t.l0, p);
      } else {
        var q := [s.cur.value] + s.l0;
        RunningFacts(s);
        assert q[1..] == s.l0;
        IndexOfPrefix(q, t.l0, p);
      }
    }
  }

  lemma {:induction false} InL0UntilServed(s: State, tr: seq<Step>, p: nat)
    requires Inv(s) && CanRun(s, tr) && p in s.l0 && !Served(s, tr, p)
    ensures p in Exec(s, tr).l0
    ensures Ahead(Exec(s, tr), p) + Dispatches(tr) <= Ahead(s, p) + 100 * Locks(s, tr)
    decreases |tr|
  {
    if tr != [] {
      var st := tr[0];
      AheadFalls(s, st, p);
      StepKeeps(s, st);
      InL0UntilServed(Apply(s, st), tr[1..], p);
    }
  }

  // The yield that completes the period moves every waiting process into L0.
  lemma BoostCollects(s: State, p: nat)
    requires Inv(s) && s.cur.Some? && s.gticks == 99 && p < |s.procs|
    requires s.procs[p].state == RUNNABLE
    ensures p in Yield(s).l0
  {
    StepKeeps(s, DoYield);
    YieldTable(s, p);
    var t := Yield(s);
    hide Yield, GiveUp;
    StaysRunnable(s, DoYield, p);
    assert p in t.l0 <==> Belongs(t.procs, t.lock, InL0, p);
  }

  // Taking the lock restarts the period. Otherwise the yields complete it, and
  // then whoever waits is in L0.
  lemma {:induction false} InL0AfterPeriod(s: State, tr: seq<Step>, p: nat)
    requires Inv(s) && CanRun(s, tr) && p < |s.procs| && s.procs[p].state == RUNNABLE && !Served(s, tr, p)
    requires Yields(tr) >= 100 * (1 + Locks(s, tr)) - s.gticks
    ensures Inv(Exec(s, tr)) && |Exec(s, tr).procs| == |s.procs| && p in Exec(s, tr).l0
    decreases |tr|
  {
    var st := tr[0];
    var t := Apply(s, st);
    StepKeeps(s, st);
    StaysRunnable(s, st, p);
    TickStep(s, st);
    if st.DoYield? && s.gticks == BOOST_TICKS - 1 {
      BoostCollects(s, p);
      InL0UntilServed(t, tr[1..], p);
      RunKeeps(t, tr[1..]);
    } else {
      InL0AfterPeriod(t, tr[1..], p);
    }
  }

  // If nobody takes the lock, it is free once the period is over.
  lemma {:induction false} FreeAfterPeriod(s: State, tr: seq<Step>)
    requires Inv(s) && CanRun(s, tr) && NeverLocks(tr)
    requires s.lock == None || Yields(tr) >= 100 - s.gticks
    ensures Exec(s, tr).lock == None
    ensures s.lock == None && s.unlock == None ==> Exec(s, tr).unlock == None
    decreases |tr|
  {
    if tr != [] {
      StepKeeps(s, tr[0]);
      LockField(s, tr[0]);
      UnlockField(s, tr[0]);
      TickStep(s, tr[0]);
      FreeAfterPeriod(Apply(s, tr[0]), tr[1..]);
    }
  }

  // Bounded waiting. In a run in which nobody takes the scheduler lock, a process
  // that waits for the CPU is dispatched before the yields that complete the
  // boost period and one dispatch per slot have gone by. A hold or a favour left
  // from before costs one dispatch more.
  lemma BoundedWaiting(s: State, a: seq<Step>, b: seq<Step>, p: nat)
    requires Inv(s) && p < |s.procs| && s.procs[p].state == RUNNABLE
    requires CanRun(s, a) && CanRun(Exec(s, a), b) && NeverLocks(a) && NeverLocks(b)
    requires Yields(a) >= 100 - s.gticks
    requires Dispatches(b) >= |s.procs| + if s.lock == None && s.unlock == None then 0 else 1
    ensures Served(s, a, p) || Served(Exec(s, a), b, p)
  {
    hide Wf, Partition, Sorted, CpuOk, LockOk, Family, PidsOk, EmbryosOk, CanRun, Served, Exec, Dispatches, Yields,
      NeverLocks;
    var t := Exec(s, a);
    NoLocks(s, a);
    NoLocks(t, b);
    FreeAfterPeriod(s, a);
    if !Served(s, a, p) && !Served(t, b, p) {
      InL0AfterPeriod(s, a, p);
      InL0UntilServed(t, b, p);
      AheadBound(t, p);
      AheadNat(Exec(t, b), p, t, b);
    }
  }

  // What the lock costs. Each time somebody takes it, the wait can grow by a
  // period of yields, and later by a period of dispatches.
  lemma WaitingForLocks(s: State, a: seq<Step>, b: seq<Step>, p: nat)
    requires Inv(s) && p < |s.procs| && s.procs[p].state == RUNNABLE
    requires CanRun(s, a) && CanRun(Exec(s, a), b)
    requires Yields(a) >= 100 * (1 + Locks(s, a)) - s.gticks
    requires Dispatches(b) > |s.procs| + 100 * (1 + Locks(Exec(s, a), b))
    ensures Served(s, a, p) || Served(Exec(s, a), b, p)
  {
    hide Wf, Partition, Sorted, CpuOk, LockOk, Family, PidsOk, EmbryosOk, CanRun, Served, Exec, Dispatches, Yields,
      Locks;
    var t := Exec(s, a);
    if !Served(s, a, p) && !Served(t, b, p) {
      InL0AfterPeriod(s, a, p);
      InL0UntilServed(t, b, p);
      AheadBound(t, p);
      AheadNat(Exec(t, b), p, t, b);
    }
  }

  lemma AheadBound(s: State, p: nat)
    requires Inv(s) && p in s.l0
    ensures Ahead(s, p) < |s.procs| + (if s.unlock.Some? then 1 else 0) + if s.lock.Some? then 100 else 0
  {
    DistinctBound(s.l0, |s.procs|);
  }

  lemma AheadNat(u: State, p: nat, s: State, tr: seq<Step>)
    requires Inv(s) && CanRun(s, tr) && u == Exec(s, tr) && p in u.l0
    ensures Ahead(u, p) >= 0
  {
    RunKeeps(s, tr);
  }

  // ------------------------------------------------------- the lock, while held

  // Every dispatch of the run is of p.
  predicate ServesOnly(s: State, tr: seq<Step>, p: nat)
    requires Wf(s) && CanRun(s, tr)
    decreases |tr|
  {
    tr == [] || ((tr[0].DoDispatch? ==> Next(s) == p) && ServesOnly(Apply(s, tr[0]), tr[1..], p))
  }

  // p holds the lock in every state of the run.
  predicate HeldBy(s: State, tr: seq<Step>, p: nat)
    requires Wf(s) && CanRun(s, tr)
    decreases |tr|
  {
    s.lock == Some(p) && (tr == [] || HeldBy(Apply(s, tr[0]), tr[1..], p))
  }

  // The lock ends by an unlock, when the holder blocks or exits, or by a boost;
  // nothing else ends it.
  lemma HoldEnds(s: State, st: Step)
    requires Inv(s) && Enabled(s, st) && s.lock.Some?
    ensures Apply(s, st).lock != s.lock <==>
      st.DoUnlock? || st.DoExit? || Blocks(s, st) || (st.DoYield? && s.gticks == 99)
    ensures Apply(s, st).lock in {s.lock, None}
  {
    hide Partition, Sorted, Family, PidsOk, EmbryosOk;
    match st
    case DoExit => ExitTable(s);
    case DoWakeup(c) => WakeupKeeps(s, c);
    case DoWait => BlocksExactly(s, st);
    case _ =>
  }

  // Exclusivity. While p holds the lock nobody else gets the CPU, and the hold
  // lasts for less than a boost period of yields.
  lemma {:induction false} LockExcludes(s: State, tr: seq<Step>, p: nat)
    requires Inv(s) && CanRun(s, tr) && HeldBy(s, tr, p)
    ensures ServesOnly(s, tr, p)
    ensures s.gticks + Yields(tr) < 100
    decreases |tr|
  {
    if tr != [] {
      StepKeeps(s, tr[0]);
      TickStep(s, tr[0]);
      HoldEnds(s, tr[0]);
      LockExcludes(Apply(s, tr[0]), tr[1..], p);
    }
  }
}
