// What a process can do with schedulerLock: keep the CPU for ever, with the help
// of schedulerUnlock and yield, and run past its quantum. Both from boot.
module SchedLocked {
  import opened Wrappers
  import opened Sched
  import opened SchedInvariant
  import opened SchedSteps
  import opened SchedEffects
  import opened SchedRuns
  import opened SchedAccounts

  // Lock and yield as the holder, then unlock and yield as the favoured process.
  function Cycle(): (r: seq<Step>) {
    [DoDispatch, DoLock, DoYield] + [DoDispatch, DoUnlock, DoYield]
  }

  // The CPU is free, nobody holds the lock, and L0 is not empty.
  ghost predicate Ready(s: State) {
    Inv(s) && s.cur == None && s.lock == None && s.l0 != []
  }

  // Process v waits behind the head of L0.
  ghost predicate Victim(s: State, v: nat) {
    Ready(s) && v != s.l0[0] && v < |s.procs| && s.procs[v].state == RUNNABLE
  }

  // What is left in place while process q plays its game.
  ghost predicate Playing(s: State, t: State, q: nat) {
    && Inv(t) && |t.procs| == |s.procs|
    && forall v: nat :: v < |s.procs| && v != q ==> t.procs[v] == s.procs[v]
  }

  lemma Served1(s: State)
    requires Inv(s) && s.cur == None && s.l0 != []
    ensures var t := Dispatch(s);
      Playing(s, t, s.l0[0]) && t.cur == Some(s.l0[0]) && t.l0 == s.l0[1..] && t.lock == s.lock
      && t.gticks == s.gticks
  {
    StepKeeps(s, DoDispatch);
  }

  lemma Back(s: State, q: nat)
    requires Inv(s) && s.cur == Some(q) && Favoured(s, q) && s.gticks < BOOST_TICKS - 1
    ensures var t := Yield(s);
      Playing(s, t, q) && t.cur == None && t.l0 == [q] + s.l0 && t.lock == s.lock && t.gticks == s.gticks + 1
  {
    StepKeeps(s, DoYield);
  }

  lemma LockCall(s: State, q: nat)
    requires Inv(s) && s.cur == Some(q) && s.lock == None
    ensures var t := Lock(s);
      Playing(s, t, q) && t.cur == s.cur && t.lock == Some(q) && t.gticks == 0 && t.l0 == s.l0
  {
    StepKeeps(s, DoLock);
  }

  lemma UnlockCall(s: State, q: nat)
    requires Inv(s) && s.cur == Some(q) && s.lock == Some(q)
    ensures var t := Unlock(s);
      && Playing(s, t, q) && t.cur == s.cur && t.lock == None && t.unlock == Some(q)
      && t.gticks == s.gticks && t.l0 == s.l0
  {
    StepKeeps(s, DoUnlock);
  }

  // One round of the cycle leaves everything but q as it was.
  lemma OneCycle(s: State, v: nat)
    requires Victim(s, v)
    ensures CanRun(s, Cycle()) && !Served(s, Cycle(), v) && Locks(s, Cycle()) == 1
    ensures var t := Exec(s, Cycle()); Victim(t, v) && t.procs[v] == s.procs[v]
  {
    var q := s.l0[0];
    var a, c := [DoDispatch, DoLock, DoYield], [DoDispatch, DoUnlock, DoYield];
    FirstHalf(s, v);
    SecondHalf(Exec(s, a), v);
    Join(s, a, c, v);
  }

  lemma FirstHalf(s: State, v: nat)
    requires Victim(s, v)
    ensures var a := [DoDispatch, DoLock, DoYield];
      CanRun(s, a) && !Served(s, a, v) && Locks(s, a) == 1
      && (var t := Exec(s, a);
          && Playing(s, t, s.l0[0]) && t.cur == None && t.l0 == s.l0
          && t.lock == Some(s.l0[0]) && t.gticks == 1)
  {
    hide Partition, Sorted, CpuOk, LockOk, Family, PidsOk, EmbryosOk, Wf, Dispatch, Lock, Unlock, Yield;
    var q := s.l0[0];
    Served1(s);
    LockCall(Dispatch(s), q);
    Back(Lock(Dispatch(s)), q);
    Three(s, DoDispatch, DoLock, DoYield, v);
    assert [q] + s.l0[1..] == s.l0;
  }

  lemma SecondHalf(s: State, v: nat)
    requires Inv(s) && s.cur == None && s.l0 != [] && s.lock == Some(s.l0[0]) && s.gticks == 1 && v != s.l0[0]
    ensures var a := [DoDispatch, DoUnlock, DoYield];
      CanRun(s, a) && !Served(s, a, v) && Locks(s, a) == 0
      && (var t := Exec(s, a);
          && Playing(s, t, s.l0[0]) && t.cur == None && t.l0 == s.l0 && t.lock == None)
  {
    hide Partition, Sorted, CpuOk, LockOk, Family, PidsOk, EmbryosOk, Wf, Dispatch, Lock, Unlock, Yield;
    var q := s.l0[0];
    Served1(s);
    UnlockCall(Dispatch(s), q);
    Back(Unlock(Dispatch(s)), q);
    Three(s, DoDispatch, DoUnlock, DoYield, v);
    assert [q] + s.l0[1..] == s.l0;
  }

  // Three steps written out.
  lemma Three(s: State, a: Step, b: Step, c: Step, v: nat)
    requires Wf(s) && Enabled(s, a) && Enabled(Apply(s, a), b) && Enabled(Apply(Apply(s, a), b), c)
    requires a.DoDispatch? && Next(s) != v && !b.DoDispatch? && !c.DoDispatch? && !c.DoLock?
    ensures CanRun(s, [a, b, c]) && !Served(s, [a, b, c], v)
    ensures Locks(s, [a, b, c]) == if TakesLock(Apply(s, a), b) then 1 else 0
    ensures Exec(s, [a, b, c]) == Apply(Apply(Apply(s, a), b), c)
  {
    hide Apply, Enabled, Next, Wf;
    RunCons(Apply(Apply(s, a), b), c, [], v);
    RunCons(Apply(s, a), b, [c], v);
    assert [a] + [b, c] == [a, b, c];
    RunCons(s, a, [b, c], v);
  }

  lemma RunCons(s: State, st: Step, tr: seq<Step>, p: nat)
    requires Wf(s) && Enabled(s, st) && CanRun(Apply(s, st), tr)
    ensures CanRun(s, [st] + tr) && Exec(s, [st] + tr) == Exec(Apply(s, st), tr)
    ensures Locks(s, [st] + tr) == (if TakesLock(s, st) then 1 else 0) + Locks(Apply(s, st), tr)
    ensures Served(s, [st] + tr, p) <==> (st.DoDispatch? && Next(s) == p) || Served(Apply(s, st), tr, p)
  {
    assert ([st] + tr)[1..] == tr;
  }

  lemma {:induction false} ServedConcat(s: State, a: seq<Step>, b: seq<Step>, p: nat)
    requires Wf(s) && CanRun(s, a) && CanRun(Exec(s, a), b) && CanRun(s, a + b)
    ensures Served(s, a + b, p) <==> Served(s, a, p) || Served(Exec(s, a), b, p)
    decreases |a|
  {
    if a == [] {
      assert a + b == b;
    } else {
      assert (a + b)[1..] == a[1..] + b;
      ServedConcat(Apply(s, a[0]), a[1..], b, p);
    }
  }

  lemma {:induction false} LocksConcat(s: State, a: seq<Step>, b: seq<Step>)
    requires Wf(s) && CanRun(s, a) && CanRun(Exec(s, a), b) && CanRun(s, a + b)
    ensures Locks(s, a + b) == Locks(s, a) + Locks(Exec(s, a), b)
    decreases |a|
  {
    if a == [] {
      assert a + b == b;
    } else {
      assert (a + b)[1..] == a[1..] + b;
      LocksConcat(Apply(s, a[0]), a[1..], b);
    }
  }

  lemma {:induction false} DispatchesConcat(a: seq<Step>, b: seq<Step>)
    ensures Dispatches(a + b) == Dispatches(a) + Dispatches(b)
  {
    if a == [] {
      assert a + b == b;
    } else {
      assert (a + b)[1..] == a[1..] + b;
      DispatchesConcat(a[1..], b);
    }
  }

  // Starvation. Whenever the CPU is free and L0 is not empty, the process at
  // its head can keep any other one from running for any number of dispatches,
  // at the price of one call of schedulerLock for every two of them. The other
  // process waits on unchanged, and the game can go on.
  lemma {:induction false} Starvation(s: State, v: nat, k: nat) returns (tr: seq<Step>)
    requires Victim(s, v)
    ensures CanRun(s, tr) && !Served(s, tr, v) && Dispatches(tr) == 2 * k && Locks(s, tr) == k
    ensures Victim(Exec(s, tr), v) && Exec(s, tr).procs[v] == s.procs[v]
    decreases k
  {
    hide Victim, Cycle, Ready, Wf, CanRun, Exec, Served, Dispatches, Locks;
    VictimWf(s, v);
    if k == 0 {
      tr := [];
      NoCycle(s, v);
    } else {
      OneCycle(s, v);
      CycleDispatches();
      var rest := Starvation(Exec(s, Cycle()), v, k - 1);
      tr := Cycle() + rest;
      Join(s, Cycle(), rest, v);
      DispatchesConcat(Cycle(), rest);
    }
  }

  lemma VictimWf(s: State, v: nat)
    requires Victim(s, v)
    ensures Wf(s) && v < |s.procs|
  {
  }

  lemma NoCycle(s: State, v: nat)
    requires Wf(s)
    ensures CanRun(s, []) && Exec(s, []) == s && !Served(s, [], v) && Dispatches([]) == 0 && Locks(s, []) == 0
  {
  }

  lemma Join(s: State, a: seq<Step>, b: seq<Step>, v: nat)
    requires Wf(s) && CanRun(s, a) && CanRun(Exec(s, a), b)
    requires !Served(s, a, v) && !Served(Exec(s, a), b, v)
    ensures CanRun(s, a + b) && Exec(s, a + b) == Exec(Exec(s, a), b) && !Served(s, a + b, v)
    ensures Locks(s, a + b) == Locks(s, a) + Locks(Exec(s, a), b)
  {
    RunConcat(s, a, b);
    LocksConcat(s, a, b);
    ServedConcat(s, a, b, v);
  }

  lemma CycleDispatches()
    ensures Dispatches(Cycle()) == 2
  {
    var a, b := [DoDispatch, DoLock, DoYield], [DoDispatch, DoUnlock, DoYield];
    assert a[1..] == [DoLock] + [DoYield] && b[1..] == [DoUnlock] + [DoYield];
    DispatchesConcat([DoLock], [DoYield]);
    DispatchesConcat([DoUnlock], [DoYield]);
    DispatchesConcat(a, b);
  }

  // Such a state is soon reached: init forks once and yields.
  lemma VictimReachable(n: nat)
    requires n >= 2
    ensures var tr := [DoDispatch, DoAlloc, DoForkFinish(1)] + [DoYield];
      CanRun(Boot(n), tr) && Victim(Exec(Boot(n), tr), 0)
  {
    hide Partition, Sorted, CpuOk, LockOk, Family, PidsOk, EmbryosOk, Boot, Dispatch, ForkFinish, Yield;
    InitRuns(n);
    var s := Boot(n);
    var d := Dispatch(s);
    InitForks(d);
    var f := ForkFinish(Alloc(d), 1);
    InitYields(f);
    Three(s, DoDispatch, DoAlloc, DoForkFinish(1), n);
    RunCons(f, DoYield, [], n);
    RunConcat(s, [DoDispatch, DoAlloc, DoForkFinish(1)], [DoYield]);
  }

  lemma InitRuns(n: nat)
    requires n >= 2
    ensures CanDispatch(Boot(n)) && Next(Boot(n)) == 0
    ensures var d := Dispatch(Boot(n));
      && Inv(d) && d.cur == Some(0) && d.l0 == [] && d.unused != [] && d.unused[0] == 1
      && d.lock == None && d.unlock == None && d.gticks == 0 && AccountOf(d.procs[0]) == After(0)
  {
    var s := Boot(n);
    BootInv(n);
    assert s.unused == seq(n, i => i)[1..];
    assert s.l0 == [0];
    StepKeeps(s, DoDispatch);
  }

  lemma InitForks(d: State)
    requires Inv(d) && d.cur == Some(0) && d.l0 == [] && d.unused != [] && d.unused[0] == 1
    ensures 1 < |d.procs| && Alloc(d).procs[1].state == EMBRYO
    ensures var f := ForkFinish(Alloc(d), 1);
      && Inv(f) && f.cur == d.cur && f.l0 == [1] && f.lock == d.lock && f.unlock == d.unlock
      && f.gticks == d.gticks && f.procs[0] == d.procs[0]
  {
    StepKeeps(d, DoAlloc);
    StepKeeps(Alloc(d), DoForkFinish(1));
  }

  lemma InitYields(f: State)
    requires Inv(f) && f.cur == Some(0) && f.l0 == [1] && f.lock == None && f.unlock == None
    requires f.gticks == 0 && AccountOf(f.procs[0]) == After(0)
    ensures Victim(Yield(f), 0)
  {
    StepKeeps(f, DoYield);
    assert Yield(f).l0 == [1, 0];
  }

  // ------------------------------------------------ quanta really are exceeded

  function HoldingRun(k: nat): (r: seq<Step>) {
    if k == 0 then [] else [DoYield, DoDispatch] + HoldingRun(k - 1)
  }

  // The holder runs on alone and its ticks pile up.
  lemma {:induction false} Piles(s: State, p: nat, k: nat)
    requires Inv(s) && s.cur == Some(p) && s.lock == Some(p) && s.gticks + k < BOOST_TICKS && p < |s.procs|
    ensures CanRun(s, HoldingRun(k))
    ensures var t := Exec(s, HoldingRun(k));
      Inv(t) && t.cur == Some(p) && t.lock == Some(p)
      && t.procs[p].ticks == s.procs[p].ticks + k && t.procs[p].level == s.procs[p].level
    decreases k
  {
    hide Partition, Sorted, CpuOk, LockOk, Family, PidsOk, EmbryosOk, Wf;
    if k > 0 {
      PileOne(s, p);
      hide Yield, Dispatch, CanRun, Exec;
      Piles(Dispatch(Yield(s)), p, k - 1);
      YieldAndBack(s, HoldingRun(k - 1));
    }
  }

  lemma YieldAndBack(s: State, tr: seq<Step>)
    requires Wf(s) && s.cur.Some? && CanDispatch(Yield(s)) && CanRun(Dispatch(Yield(s)), tr)
    ensures CanRun(s, [DoYield, DoDispatch] + tr)
    ensures Exec(s, [DoYield, DoDispatch] + tr) == Exec(Dispatch(Yield(s)), tr)
  {
    RunCons(Yield(s), DoDispatch, tr, 0);
    RunCons(s, DoYield, [DoDispatch] + tr, 0);
    assert [DoYield, DoDispatch] + tr == [DoYield] + ([DoDispatch] + tr);
  }

  lemma PileOne(s: State, p: nat)
    requires Inv(s) && s.cur == Some(p) && s.lock == Some(p) && s.gticks < BOOST_TICKS - 1 && p < |s.procs|
    ensures CanDispatch(Yield(s))
    ensures var t := Dispatch(Yield(s));
      Inv(t) && t.cur == Some(p) && t.lock == Some(p) && t.gticks == s.gticks + 1 && |t.procs| == |s.procs|
      && t.procs[p].ticks == s.procs[p].ticks + 1 && t.procs[p].level == s.procs[p].level
  {
    Back(s, p);
    Served1(Yield(s));
  }

  // init is the first process to run, and takes the lock.
  lemma FirstLock(n: nat)
    requires n > 0
    ensures CanRun(Boot(n), [DoDispatch, DoLock])
    ensures var l := Exec(Boot(n), [DoDispatch, DoLock]);
      Inv(l) && l.cur == Some(0) && l.lock == Some(0) && l.gticks == 0 && AccountOf(l.procs[0]) == After(0)
  {
    hide Partition, Sorted, CpuOk, LockOk, Family, PidsOk, EmbryosOk;
    var s := Boot(n);
    BootInv(n);
    assert s.l0 == [0];
    StepKeeps(s, DoDispatch);
    StepKeeps(Dispatch(s), DoLock);
    assert [DoDispatch, DoLock][1..] == [DoLock];
    assert [DoLock][1..] == [];
    assert Exec(s, [DoDispatch, DoLock]) == Lock(Dispatch(s));
  }

  // From boot: init locks the scheduler, runs for four ticks and sleeps.
  function Oversleeping(): (r: seq<Step>) {
    [DoDispatch, DoLock] + HoldingRun(4) + [DoSleep(1)]
  }

  lemma QuantaExceeded(n: nat)
    requires n > 0
    ensures CanRun(Boot(n), Oversleeping()) && !QuantaOk(Exec(Boot(n), Oversleeping()))
  {
    hide Partition, Sorted, CpuOk, LockOk, Family, PidsOk, EmbryosOk, Wf, Boot;
    hide Dispatch, Lock, Yield, SleepOn, Wait, Exit, Alloc, ForkFail, ForkFinish, Wakeup, Kill, SetPriority, Fault,
      Unlock;
    var s := Boot(n);
    var a, b, c := [DoDispatch, DoLock], HoldingRun(4), [DoSleep(1)];
    FirstLock(n);
    Piles(Exec(s, a), 0, 4);
    var t := Exec(Exec(s, a), b);
    OversleepBreaks(t, DoSleep(1));
    hide Inv, Boot, HoldingRun, Apply;
    RunConcat(s, a, b);
    assert CanRun(t, c);
    RunConcat(s, a + b, c);
  }
}
