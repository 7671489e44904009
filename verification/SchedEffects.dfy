// What each kind of step can change: table entries, queues, tick counter and lock.
module SchedEffects {
  import opened Wrappers
  import opened Sched
  import opened SchedInvariant
  import opened SchedSteps

  datatype Account = Account(level: int, ticks: int, priority: int)

  function AccountOf(b: Pcb): (r: Account) {
    Account(b.level, b.ticks, b.priority)
  }

  // The steps in which the running process gives up the CPU to sleep: sleep(),
  // and wait() of a process that has children, none of them dead, and that
  // nobody has killed.
  ghost predicate Blocks(s: State, st: Step) {
    s.cur.Some? && (st.DoSleep? || (st.DoWait? && CanWait(s, s.cur.value)))
  }

  // A step that blocks is a sleep; a turn of wait() that does not block goes on
  // with the CPU and the lock.
  lemma BlocksExactly(s: State, st: Step)
    requires Inv(s) && Enabled(s, st) && (st.DoSleep? || st.DoWait?)
    ensures Blocks(s, st) ==> exists c :: Apply(s, st) == SleepOn(s, c)
    ensures !Blocks(s, st) ==> Apply(s, st).lock == s.lock && Apply(s, st).cur == s.cur
  {
    if st.DoSleep? { assert Apply(s, st) == SleepOn(s, Address(st.a)); }
    if st.DoWait? {
      WaitBlocks(s);
      if Blocks(s, st) { assert Apply(s, st) == SleepOn(s, EntryOf(s.cur.value)); }
    }
  }

  lemma WaitBlocks(s: State)
    requires Inv(s) && s.cur.Some?
    ensures CanWait(s, s.cur.value) ==> Wait(s) == SleepOn(s, EntryOf(s.cur.value)) && Wait(s).cur == None
    ensures !CanWait(s, s.cur.value) ==> Wait(s).lock == s.lock && Wait(s).cur == s.cur
  {
    var me := s.cur.value;
    var z := FirstDead(s, me, 0);
    RunningFacts(s);
    if z == |s.procs| {
      assert forall c: nat :: !IsDeadChild(s, me, c);
    } else {
      assert IsDeadChild(s, me, z);
    }
  }

  // --------------------------------------------------------------- calm steps

  // Steps other than dispatch, yield and the two lock calls.
  predicate IsCalm(st: Step) {
    !st.DoDispatch? && !st.DoYield? && !st.DoLock? && !st.DoUnlock?
  }

  // One table entry across a calm step: a waiting process goes on waiting, the
  // account of a living process stays, and only an embryo can come to life.
  predicate CalmEntry(a: Pcb, b: Pcb, newPriority: bool) {
    && (a.state == RUNNABLE ==> b.state == RUNNABLE)
    && (Alive(b) ==> (Alive(a) || a.state == EMBRYO) && b.level == a.level && b.ticks == a.ticks
                     && (b.priority == a.priority || newPriority))
  }

  ghost predicate Calm(s: State, t: State, except: Option<nat>) {
    && |t.procs| == |s.procs|
    && t.gticks == s.gticks && t.unlock == s.unlock && (t.lock == s.lock || t.lock == None)
    && s.l0 <= t.l0
    && (forall p: nat :: p < |s.procs| ==> CalmEntry(s.procs[p], t.procs[p], except == Some(p)))
  }

  function Renamed(s: State, st: Step): (r: Option<nat>) {
    if st.DoSetPriority? then LastPid(s.procs, st.pid, |s.procs|) else None
  }

  lemma SleepCalm(s: State, c: Chan)
    requires Inv(s) && s.cur.Some?
    ensures Calm(s, SleepOn(s, c), None)
  {
  }

  lemma WaitCalm(s: State)
    requires Inv(s) && s.cur.Some?
    ensures Calm(s, Wait(s), None)
  {
    var z := FirstDead(s, s.cur.value, 0);
    if z == |s.procs| { SleepCalm(s, EntryOf(s.cur.value)); }
  }

  lemma ExitTable(s: State)
    requires Inv(s) && s.cur.Some? && s.cur.value != s.init
    ensures var t := Exit(s); var me := s.cur.value;
      && t.(procs := s.procs, l0 := s.l0, l1 := s.l1, l2 := s.l2, sleep := s.sleep) == s.(lock := None, cur := None)
      && s.l0 <= t.l0
      && t.procs[me] == s.procs[me].(state := ZOMBIE)
      && (forall j: nat :: j < |s.procs| && j != me ==> OnlyWoken(s.procs[j], t.procs[j]))
      && (forall j: nat :: j < |s.procs| && j != me ==>
            && t.procs[j].parent == (if IsChild(s, me, j) then Some(s.init) else s.procs[j].parent)
            && t.procs[j].state == if HearsExit(s, me, j) then RUNNABLE else s.procs[j].state)
  {
    hide Partition, Sorted, LockOk, Family, PidsOk, EmbryosOk;
    var me := s.cur.value;
    RunningFacts(s);
    var c := ParentChan(s.procs[me]);
    var w := Wakeup(s, c);
    WakeupKeeps(s, c);
    ReparentKeeps(w, me, 0);
    ReparentTable(w, me, 0);
    assert w.procs[me] == s.procs[me];
    OnlyWakesTrans(s, w, Reparent(w, me, 0));
    forall j: nat | j < |s.procs| && j != me
      ensures HandedOn(w, me, w.procs[j]).parent == if IsChild(s, me, j) then Some(s.init) else s.procs[j].parent
      ensures HandedOn(w, me, w.procs[j]).state == if HearsExit(s, me, j) then RUNNABLE else s.procs[j].state
    {
      HearsEither(s, w, me, j);
    }
  }

  // Who is asleep in wait() and wakes up when me exits: its parent, and init if
  // it is handed a dead child.
  ghost predicate HearsExit(s: State, me: nat, j: nat) {
    Waiting(s, j) && (IsChild(s, j, me) || (j == s.init && exists z: nat :: IsDeadChild(s, me, z)))
  }

  lemma HearsEither(s: State, w: State, me: nat, j: nat)
    requires Inv(s) && s.cur == Some(me) && j < |s.procs| && j != me && |w.procs| == |s.procs| && w.init == s.init
    requires forall i: nat :: i < |s.procs| ==>
      w.procs[i] == if s.procs[i].state == SLEEPING && s.procs[i].chan == ParentChan(s.procs[me])
                    then s.procs[i].(state := RUNNABLE) else s.procs[i]
    ensures HandedOn(w, me, w.procs[j]).parent == if IsChild(s, me, j) then Some(s.init) else s.procs[j].parent
    ensures HandedOn(w, me, w.procs[j]).state == if HearsExit(s, me, j) then RUNNABLE else s.procs[j].state
  {
    hide Partition, Sorted, CpuOk, LockOk, PidsOk, EmbryosOk;
    assert ChanOk(s, j);
    forall z: nat ensures IsDeadChild(w, me, z) <==> IsDeadChild(s, me, z) {
    }
    assert (exists z: nat :: IsDeadChild(w, me, z)) <==> (exists z: nat :: IsDeadChild(s, me, z));
  }

  lemma ExitCalm(s: State)
    requires Inv(s) && s.cur.Some? && s.cur.value != s.init
    ensures Calm(s, Exit(s), None)
  {
    ExitTable(s);
    RunningFacts(s);
    forall p: nat | p < |s.procs| ensures CalmEntry(s.procs[p], Exit(s).procs[p], false) {
      assert p != s.cur.value ==> OnlyWoken(s.procs[p], Exit(s).procs[p]);
    }
  }

  lemma AllocCalm(s: State)
    requires Inv(s)
    ensures Calm(s, Alloc(s), None)
  {
    if s.unused != [] { assert Belongs(s.procs, s.lock, InUnused, s.unused[0]); }
  }

  lemma ForkFailCalm(s: State, e: nat)
    requires Inv(s) && e < |s.procs| && s.procs[e].state == EMBRYO
    ensures Calm(s, ForkFail(s, e), None)
  {
  }

  lemma ForkFinishCalm(s: State, e: nat)
    requires Inv(s) && e < |s.procs| && s.procs[e].state == EMBRYO && s.cur.Some?
    ensures Calm(s, ForkFinish(s, e), None)
  {
  }

  lemma WakeupCalm(s: State, c: Chan)
    requires Inv(s)
    ensures Calm(s, Wakeup(s, c), None)
  {
    WakeupKeeps(s, c);
  }

  lemma KillCalm(s: State, pid: int)
    requires Inv(s)
    ensures Calm(s, Kill(s, pid), None)
  {
    var k := FirstPid(s.procs, pid, 0);
    if k < |s.procs| && s.procs[k].state == SLEEPING {
      WakeKeeps(s, k);
      WakeWithKilled(s, k);
    }
  }

  lemma SetPriorityCalm(s: State, pid: int, v: int)
    requires Inv(s)
    ensures Calm(s, SetPriority(s, pid, v), LastPid(s.procs, pid, |s.procs|))
  {
    var k := LastPid(s.procs, pid, |s.procs|);
    var t := SetPriority(s, pid, v);
    assert t == s.(procs := t.procs, l2 := t.l2);
    assert k.Some? ==> t.procs in {s.procs, WithPriority(s, k.value, v).procs};
    hide SetPriority;
  }

  lemma FaultCalm(s: State)
    requires Inv(s) && s.cur.Some?
    ensures Calm(s, Fault(s), None)
  {
  }

  lemma CalmStep(s: State, st: Step)
    requires Inv(s) && Enabled(s, st) && IsCalm(st)
    ensures Calm(s, Apply(s, st), Renamed(s, st))
  {
    hide Partition, Sorted, CpuOk, LockOk, Family, PidsOk, EmbryosOk, SleepOn, Wait, Exit, Alloc, Wakeup, Kill,
      SetPriority, Fault;
    hide Calm;
    match st
    case DoSleep(a) => SleepCalm(s, Address(a));
    case DoWait => WaitCalm(s);
    case DoExit => ExitCalm(s);
    case DoAlloc => AllocCalm(s);
    case DoForkFail(e) => ForkFailCalm(s, e);
    case DoForkFinish(e) => ForkFinishCalm(s, e);
    case DoWakeup(c) => WakeupCalm(s, c);
    case DoKill(pid) => KillCalm(s, pid);
    case DoSetPriority(pid, v) => SetPriorityCalm(s, pid, v);
    case DoFault => FaultCalm(s);
  }

  // ------------------------------------------------------- dispatch and yield

  lemma NextRunnable(s: State)
    requires Inv(s) && CanDispatch(s)
    ensures Next(s) < |s.procs| && s.procs[Next(s)].state == RUNNABLE
  {
    var p := Next(s);
    assert p in s.l0 ==> Belongs(s.procs, s.lock, InL0, p);
    assert p in s.l1 ==> Belongs(s.procs, s.lock, InL1, p);
    assert p in s.l2 ==> Belongs(s.procs, s.lock, InL2, p);
  }

  // The end of the quantum touches the running process only; a boost resets
  // everybody else who is asleep or waits for the CPU.
  lemma YieldTable(s: State, p: nat)
    requires Inv(s) && s.cur.Some? && p < |s.procs|
    ensures Yield(s).procs[p] ==
      (var b := GiveUp(s).procs[p];
       if s.gticks == BOOST_TICKS - 1 && b.state in {SLEEPING, RUNNABLE} then Reset(b) else b)
  {
    var t := GiveUp(s);
    if s.gticks == BOOST_TICKS - 1 {
      if Favoured(s, s.cur.value) { GiveUpFavoured(s); } else { GiveUpPlain(s); }
      var u := t.(cur := None, gticks := 0);
      assert Partition(t.(cur := None));
      BoostTable(u, p);
      assert Yield(s).procs == Boost(u).procs;
    }
  }

  // --------------------------------------------------------- single questions

  // The global tick count moves only with yields and with a successful lock.
  lemma TickStep(s: State, st: Step)
    requires Inv(s) && Enabled(s, st)
    ensures Apply(s, st).gticks ==
      if st.DoYield? then (if s.gticks == 99 then 0 else s.gticks + 1)
      else if st.DoLock? && s.lock == None then 0
      else s.gticks
  {
    if IsCalm(st) { CalmStep(s, st); }
  }

  // Without a step that takes the lock, a free lock stays free. The pending
  // favour of unlockproc is then not renewed, and a head insertion uses it up.
  lemma FreeLockStep(s: State, st: Step)
    requires Inv(s) && Enabled(s, st) && s.lock == None && !st.DoLock?
    ensures Apply(s, st).lock == None
    ensures Apply(s, st).unlock == if st.DoYield? && s.unlock == s.cur then None else s.unlock
  {
    if IsCalm(st) { CalmStep(s, st); }
  }

  // The favour of unlockproc: given by a successful unlock, used up by a yield.
  lemma UnlockField(s: State, st: Step)
    requires Inv(s) && Enabled(s, st)
    ensures Apply(s, st).unlock ==
      if st.DoYield? && s.unlock == s.cur then None
      else if st.DoUnlock? && s.lock.Some? then s.cur
      else s.unlock
  {
    if IsCalm(st) { CalmStep(s, st); }
  }

  // The lock is taken by schedulerLock only, and only while it is free. A boost
  // frees it; a holder that yields before that keeps it.
  lemma LockField(s: State, st: Step)
    requires Inv(s) && Enabled(s, st)
    ensures s.lock == None ==> Apply(s, st).lock == if st.DoLock? then s.cur else None
    ensures s.lock.Some? ==> Apply(s, st).lock in {s.lock, None}
    ensures st.DoYield? && s.gticks == BOOST_TICKS - 1 ==> Apply(s, st).lock == None
  {
    if IsCalm(st) { CalmStep(s, st); }
  }

  // A process that waits for the CPU waits until it is dispatched.
  lemma StaysRunnable(s: State, st: Step, p: nat)
    requires Inv(s) && Enabled(s, st) && p < |s.procs| && s.procs[p].state == RUNNABLE
    requires !(st.DoDispatch? && Next(s) == p)
    ensures Apply(s, st).procs[p].state == RUNNABLE
  {
    hide Sorted, LockOk, Family, PidsOk, EmbryosOk;
    assert s.cur != Some(p);
    if IsCalm(st) {
      CalmStep(s, st);
      hide Apply;
    } else if st.DoYield? {
      YieldTable(s, p);
    }
  }

  // Any step but a dispatch leaves the front of L0 as it is, except that the
  // lock holder, and the process that last unlocked, go in at the head when they
  // yield.
  lemma FrontOfL0(s: State, st: Step)
    requires Inv(s) && Enabled(s, st) && !st.DoDispatch?
    ensures var r := Apply(s, st).l0;
      if st.DoYield? && s.cur in {s.lock, s.unlock} then [s.cur.value] + s.l0 <= r else s.l0 <= r
  {
    hide Partition, Sorted, CpuOk, LockOk, Family, PidsOk, EmbryosOk, Wf;
    hide Dispatch, Yield, SleepOn, Wait, Exit, Alloc, ForkFail, ForkFinish, Wakeup, Kill, SetPriority, Fault;
    if IsCalm(st) {
      CalmStep(s, st);
    } else if st.DoYield? {
      YieldFront(s);
    }
  }

  lemma YieldFront(s: State)
    requires Wf(s) && s.cur.Some?
    ensures if s.cur in {s.lock, s.unlock} then [s.cur.value] + s.l0 <= Yield(s).l0 else s.l0 <= Yield(s).l0
  {
    assert GiveUp(s).l0 <= Yield(s).l0;
  }

  // Only yield, unlock and setPriority touch the account of a living process,
  // and a process comes to life with a fresh one.
  lemma AccountKept(s: State, st: Step, p: nat)
    requires Inv(s) && Enabled(s, st) && p < |s.procs| && Alive(Apply(s, st).procs[p])
    requires !st.DoYield? && !st.DoUnlock?
    ensures var a := s.procs[p]; var b := Apply(s, st).procs[p];
      && b.level == a.level && b.ticks == a.ticks
      && (b.priority == a.priority || Renamed(s, st) == Some(p))
      && (Alive(a) || a.state == EMBRYO)
  {
    if IsCalm(st) {
      CalmStep(s, st);
      hide Apply;
    } else if st.DoDispatch? {
      NextRunnable(s);
    }
  }
}
