// Each step of the scheduler keeps the invariant, one lemma a critical section.
module SchedSteps {
  import opened Wrappers
  import opened Slots
  import opened Sched
  import opened SchedInvariant

  // ------------------------------------------------------------------ wakeup

  lemma {:induction false} WakeEachKeeps(s: State, todo: seq<nat>, c: Chan)
    requires Core(s) && Distinct(todo) && InRange(todo, |s.procs|)
    requires forall x :: x in todo ==> s.procs[x].state == SLEEPING
    ensures Core(WakeEach(s, todo, c))
    ensures s.l0 <= WakeEach(s, todo, c).l0
    decreases |todo|
  {
    hide Wf, Partition, Sorted, CpuOk, LockOk, Family, PidsOk, EmbryosOk, Wake;
    if todo != [] {
      var p := todo[0];
      assert forall x :: x in todo[1..] ==> x in todo && x != p;
      if s.procs[p].chan == c {
        WakeKeeps(s, p);
        WakeEachKeeps(Wake(s, p), todo[1..], c);
      } else {
        WakeEachKeeps(s, todo[1..], c);
      }
    }
  }

  // Exactly the sleepers on c become runnable, and nothing else changes in the
  // table.
  lemma {:induction false} WakeEachTable(s: State, todo: seq<nat>, c: Chan, i: nat)
    requires Wf(s) && Distinct(todo) && InRange(todo, |s.procs|) && i < |s.procs|
    ensures WakeEach(s, todo, c).procs[i]
      == if i in todo && s.procs[i].chan == c then s.procs[i].(state := RUNNABLE) else s.procs[i]
    ensures WakeEach(s, todo, c).(procs := s.procs, l0 := s.l0, l1 := s.l1, l2 := s.l2, sleep := s.sleep) == s
    decreases |todo|
  {
    if todo != [] {
      var p := todo[0];
      assert p !in todo[1..];
      var t := if s.procs[p].chan == c then Wake(s, p) else s;
      WakeEachTable(t, todo[1..], c, i);
    }
  }

  lemma WakeupKeeps(s: State, c: Chan)
    requires Core(s)
    ensures Core(Wakeup(s, c))
    ensures s.l0 <= Wakeup(s, c).l0
    ensures Wakeup(s, c).(procs := s.procs, l0 := s.l0, l1 := s.l1, l2 := s.l2, sleep := s.sleep) == s
    ensures forall i: nat :: i < |s.procs| ==>
      Wakeup(s, c).procs[i]
        == if s.procs[i].state == SLEEPING && s.procs[i].chan == c then s.procs[i].(state := RUNNABLE)
           else s.procs[i]
  {
    forall x | x in s.sleep ensures x < |s.procs| && s.procs[x].state == SLEEPING {
      assert Belongs(s.procs, s.lock, InSleep, x);
    }
    WakeEachKeeps(s, s.sleep, c);
    forall i: nat | i < |s.procs| ensures i in s.sleep <==> s.procs[i].state == SLEEPING {
      assert i in s.sleep <==> Belongs(s.procs, s.lock, InSleep, i);
    }
    forall i: nat | i < |s.procs|
      ensures Wakeup(s, c).procs[i]
        == if s.procs[i].state == SLEEPING && s.procs[i].chan == c then s.procs[i].(state := RUNNABLE)
           else s.procs[i]
      ensures Wakeup(s, c).(procs := s.procs, l0 := s.l0, l1 := s.l1, l2 := s.l2, sleep := s.sleep) == s
    {
      WakeEachTable(s, s.sleep, c, i);
    }
  }

  // ------------------------------------------------------------- switch back

  // A boost resets every process that is asleep or waits for the CPU.
  lemma BoostTable(s: State, i: nat)
    requires Wf(s) && Partition(s) && i < |s.procs|
    ensures Boost(s).procs[i]
      == if s.procs[i].state in {SLEEPING, RUNNABLE} then Reset(s.procs[i]) else s.procs[i]
  {
    assert i in s.l0 <==> Belongs(s.procs, s.lock, InL0, i);
    assert i in s.l1 <==> Belongs(s.procs, s.lock, InL1, i);
    assert i in s.l2 <==> Belongs(s.procs, s.lock, InL2, i);
    assert i in s.sleep <==> Belongs(s.procs, s.lock, InSleep, i);
  }

  lemma BoostQueue(s: State)
    requires Wf(s) && Partition(s)
    ensures Distinct(s.l0 + (s.l1 + s.l2))
    ensures forall x: nat :: x in s.l0 + (s.l1 + s.l2) <==> x < |s.procs| && s.procs[x].state == RUNNABLE
  {
    forall x: nat
      ensures x in s.l0 ==> x !in s.l1 && x !in s.l2
      ensures x in s.l1 ==> x !in s.l2
      ensures x in s.l0 || x in s.l1 || x in s.l2 <==> x < |s.procs| && s.procs[x].state == RUNNABLE
    {
      assert x in s.l0 <==> Belongs(s.procs, s.lock, InL0, x);
      assert x in s.l1 <==> Belongs(s.procs, s.lock, InL1, x);
      assert x in s.l2 <==> Belongs(s.procs, s.lock, InL2, x);
    }
    ConcatDistinct(s.l1, s.l2);
    ConcatDistinct(s.l0, s.l1 + s.l2);
  }

  lemma BoostQueues(s: State)
    requires Wf(s) && Partition(s)
    ensures Partition(Boost(s).(lock := None))
  {
    var t := Boost(s).(lock := None);
    BoostQueue(s);
    forall x: nat
      ensures Belongs(t.procs, None, InL0, x) <==> x < |s.procs| && s.procs[x].state == RUNNABLE
      ensures !Belongs(t.procs, None, InL1, x) && !Belongs(t.procs, None, InL2, x)
      ensures Belongs(t.procs, None, InSleep, x) <==> Belongs(s.procs, s.lock, InSleep, x)
      ensures Belongs(t.procs, None, InUnused, x) <==> Belongs(s.procs, s.lock, InUnused, x)
    {
      if x < |s.procs| { BoostTable(s, x); }
    }
  }

  // The parts of the invariant that do not look at queues, accounts or the lock.
  lemma FamilySame(s: State, t: State)
    requires Family(s) && |t.procs| == |s.procs| && t.init == s.init
    requires forall i: nat :: i < |s.procs| ==>
      t.procs[i].state == s.procs[i].state && t.procs[i].parent == s.procs[i].parent
      && t.procs[i].chan == s.procs[i].chan && (t.procs[i].killed ==> s.procs[i].killed)
    ensures Family(t)
  {
    forall i: nat | i < |t.procs| ensures ParentOk(t, i) && ChanOk(t, i) {
      assert ParentOk(s, i) && ChanOk(s, i);
    }
    forall i: nat ensures WaitOk(t, i) {
      assert WaitOk(s, i);
      if Waiting(t, i) {
        var c: nat :| IsChild(s, i, c);
        assert IsChild(t, i, c);
        forall d: nat ensures !IsDeadChild(t, i, d) { assert !IsDeadChild(s, i, d); }
      }
    }
  }

  lemma BoostKeeps(s: State)
    requires Core(s) && s.cur == None
    ensures Core(Boost(s).(lock := None))
  {
    var t := Boost(s).(lock := None);
    BoostQueues(s);
    forall i: nat | i < |s.procs|
      ensures t.procs[i] == if s.procs[i].state in {SLEEPING, RUNNABLE} then Reset(s.procs[i]) else s.procs[i]
    {
      BoostTable(s, i);
    }
    FamilySame(s, t);
  }

  // The switch back does not depend on who ran.
  lemma SwitchBackKeeps(s: State)
    requires Wf(s) && Core(s.(cur := None))
    ensures Inv(SwitchBack(s))
  {
    var t := s.(cur := None);
    if s.gticks == BOOST_TICKS {
      var u := t.(gticks := 0);
      FamilySame(t, u);
      assert Core(u);
      BoostKeeps(u);
      assert SwitchBack(s) == Boost(u).(lock := None);
    }
  }

  // ------------------------------------------------------------------- sleep

  lemma RunningFacts(s: State)
    requires Core(s) && s.cur.Some?
    ensures var p := s.cur.value;
      p < |s.procs| && s.procs[p].state == RUNNING && s.procs[p].chan == NoChan && Alive(s.procs[p])
      && p !in s.l0 && p !in s.l1 && p !in s.l2 && p !in s.sleep && p !in s.unused
  {
    var p := s.cur.value;
    assert ChanOk(s, p);
    assert !Belongs(s.procs, s.lock, InL0, p);
    assert !Belongs(s.procs, s.lock, InL1, p);
    assert !Belongs(s.procs, s.lock, InL2, p);
    assert !Belongs(s.procs, s.lock, InSleep, p);
    assert !Belongs(s.procs, s.lock, InUnused, p);
  }

  // Without a lock holder on the CPU the lock does not place anybody.
  lemma ReleaseQueues(s: State)
    requires Core(s) && s.cur.Some?
    ensures Partition(s.(lock := None))
  {
    RunningFacts(s);
    forall x: nat, place: Place
      ensures Belongs(s.procs, s.lock, place, x) <==> Belongs(s.procs, None, place, x)
    {
    }
  }

  lemma SleepQueues(s: State, c: Chan)
    requires Inv(s) && s.cur.Some?
    ensures var p := s.cur.value;
      Partition(s.(lock := None, sleep := s.sleep + [p],
                   procs := s.procs[p := s.procs[p].(chan := c, state := SLEEPING)]))
  {
    var p := s.cur.value;
    var b := s.procs[p].(chan := c, state := SLEEPING);
    var t := s.(lock := None, procs := s.procs[p := b], sleep := s.sleep + [p]);
    RunningFacts(s);
    ReleaseQueues(s);
    Unlink(s.(lock := None), p, b, t.(sleep := s.sleep));
    AppendMembers(s.sleep, p);
    assert Belongs(t.procs, None, InSleep, p);
  }

  lemma SleepKeeps(s: State, c: Chan)
    requires Inv(s) && s.cur.Some?
    requires c.Address? || (c == EntryOf(s.cur.value) && CanWait(s, s.cur.value))
    ensures Inv(SleepOn(s, c))
  {
    hide Holds, Sorted, Family, SwitchBack;
    var p := s.cur.value;
    var b := s.procs[p].(chan := c, state := SLEEPING);
    var t := s.(lock := None, procs := s.procs[p := b], sleep := s.sleep + [p]);
    SleepQueues(s, c);
    RunningFacts(s);
    SleepFamily(s, c, t.(cur := None));
    SortedElsewhere(s.l2, s.procs, p, b);
    SwitchBackKeeps(t);
  }

  lemma SleepFamily(s: State, c: Chan, u: State)
    requires Inv(s) && s.cur.Some? && u.init == s.init
    requires var p := s.cur.value; u.procs == s.procs[p := s.procs[p].(chan := c, state := SLEEPING)]
    requires c.Address? || (c == EntryOf(s.cur.value) && CanWait(s, s.cur.value))
    ensures Family(u)
  {
    hide Holds, Sorted;
    var p := s.cur.value;
    RunningFacts(s);
    assert ParentOk(s, p);
    assert WaitOk(u, p) by {
      if Waiting(u, p) {
        var d: nat :| IsChild(s, p, d);
        assert IsChild(u, p, d);
        forall d: nat ensures !IsDeadChild(u, p, d) { assert !IsDeadChild(s, p, d); }
      }
    }
    FamilyChange(s, p, u.procs[p], u);
  }

  // The caller of wait() has children, none of them dead, and was not killed.
  ghost predicate CanWait(s: State, p: nat) {
    && (exists c: nat :: IsChild(s, p, c))
    && (forall c: nat :: !IsDeadChild(s, p, c))
    && p < |s.procs| && !s.procs[p].killed
  }

  // ------------------------------------------------------------------- yield

  lemma HeadInsert(q: seq<nat>, procs: seq<Pcb>, lock: Option<nat>, p: nat)
    requires HoldsBut(q, procs, lock, InL0, p) && Belongs(procs, lock, InL0, p)
    ensures Holds([p] + q, procs, lock, InL0)
  {
    assert ([p] + q)[0] == p;
    forall x: nat ensures x in [p] + q <==> Belongs(procs, lock, InL0, x) {}
  }

  lemma GiveUpFavouredQueues(s: State)
    requires Inv(s) && s.cur.Some? && Favoured(s, s.cur.value)
    ensures var t := GiveUp(s); Partition(t) && Sorted(t.l2, t.procs)
  {
    var p := s.cur.value;
    RunningFacts(s);
    var t := GiveUp(s);
    Unlink(s, p, t.procs[p], t.(l0 := s.l0));
    HeadInsert(s.l0, t.procs, t.lock, p);
  }

  lemma GiveUpFavoured(s: State)
    requires Inv(s) && s.cur.Some? && Favoured(s, s.cur.value)
    ensures Core(GiveUp(s).(cur := None))
  {
    hide Holds, Sorted;
    var p := s.cur.value;
    RunningFacts(s);
    GiveUpFavouredQueues(s);
    var t := GiveUp(s);
    assert ParentOk(s, p);
    FamilyChange(s, p, t.procs[p], t.(cur := None));
  }

  lemma GiveUpPlainQueues(s: State)
    requires Inv(s) && s.cur.Some? && !Favoured(s, s.cur.value)
    ensures var t := GiveUp(s); Partition(t) && Sorted(t.l2, t.procs) && s.l0 <= t.l0
  {
    hide Sorted, Family, Enqueue;
    var p := s.cur.value;
    RunningFacts(s);
    var b := Charge(s.procs[p].(state := RUNNABLE));
    var t := s.(gticks := s.gticks + 1, procs := s.procs[p := b]);
    Unlink(s, p, b, t);
    SortedElsewhere(s.l2, s.procs, p, b);
    EnqueueKeeps(t, p);
  }

  lemma GiveUpPlain(s: State)
    requires Inv(s) && s.cur.Some? && !Favoured(s, s.cur.value)
    ensures Core(GiveUp(s).(cur := None))
  {
    hide Holds, Sorted, Enqueue, PidsOk, EmbryosOk;
    var p := s.cur.value;
    RunningFacts(s);
    GiveUpPlainQueues(s);
    var t := GiveUp(s);
    var u := t.(cur := None);
    var b := Charge(s.procs[p].(state := RUNNABLE));
    assert t == s.(gticks := s.gticks + 1, procs := s.procs[p := b], l0 := t.l0, l1 := t.l1, l2 := t.l2);
    assert ParentOk(s, p);
    FamilyChange(s, p, b, u);
    OtherIds(s, p, b, u);
  }

  // A change of an entry that keeps its process number and is not under
  // construction.
  lemma OtherIds(s: State, p: nat, b: Pcb, u: State)
    requires PidsOk(s) && EmbryosOk(s) && p < |s.procs| && u.procs == s.procs[p := b] && u.nextpid == s.nextpid
    requires b.pid == s.procs[p].pid && s.procs[p].state != UNUSED && b.state != EMBRYO
    ensures PidsOk(u) && EmbryosOk(u)
  {
  }

  lemma YieldKeeps(s: State)
    requires Inv(s) && s.cur.Some?
    ensures Inv(Yield(s))
  {
    if Favoured(s, s.cur.value) { GiveUpFavoured(s); } else { GiveUpPlain(s); }
    SwitchBackKeeps(GiveUp(s));
  }

  // ---------------------------------------------------------------- dispatch

  lemma DispatchQueues(s: State)
    requires Inv(s) && CanDispatch(s)
    ensures Next(s) < |s.procs| && s.procs[Next(s)].state == RUNNABLE
    ensures Partition(Dispatch(s)) && Sorted(Dispatch(s).l2, Dispatch(s).procs)
  {
    var p := Next(s);
    var t := Dispatch(s);
    assert p in s.l0 <==> Belongs(s.procs, s.lock, InL0, p);
    assert p in s.l1 <==> Belongs(s.procs, s.lock, InL1, p);
    assert p in s.l2 <==> Belongs(s.procs, s.lock, InL2, p);
    assert p in s.sleep <==> Belongs(s.procs, s.lock, InSleep, p);
    assert p in s.unused <==> Belongs(s.procs, s.lock, InUnused, p);
    Unlink(s, p, t.procs[p], t);
    PartitionNowhere(t, p);
  }

  lemma DispatchKeeps(s: State)
    requires Inv(s) && CanDispatch(s)
    ensures Inv(Dispatch(s))
  {
    var p := Next(s);
    var t := Dispatch(s);
    DispatchQueues(s);
    assert ParentOk(s, p);
    FamilyChange(s, p, t.procs[p], t);
    assert s.lock.Some? ==> s.lock == Some(p);
  }

  // -------------------------------------------------------- the scheduler lock

  lemma LockKeeps(s: State)
    requires Inv(s) && s.cur.Some?
    ensures Inv(Lock(s))
  {
    var t := Lock(s);
    RunningFacts(s);
    if s.lock == None {
      forall x: nat, place: Place
        ensures Belongs(s.procs, None, place, x) <==> Belongs(s.procs, t.lock, place, x)
      {
      }
      assert Partition(t);
      FamilySame(s, t);
    }
  }

  lemma UnlockKeeps(s: State)
    requires Inv(s) && s.cur.Some?
    ensures Inv(Unlock(s))
  {
    hide Sorted;
    var p := s.cur.value;
    var t := Unlock(s);
    RunningFacts(s);
    if s.lock.Some? {
      ReleaseQueues(s);
      forall x: nat, place: Place
        ensures Belongs(s.procs, None, place, x) <==> Belongs(t.procs, None, place, x)
      {
      }
      assert Partition(t);
      FamilySame(s, t);
      SortedElsewhere(s.l2, s.procs, p, t.procs[p]);
    }
  }

  // ------------------------------------------------------------------- fork

  lemma AllocQueues(s: State)
    requires Inv(s) && s.unused != []
    ensures Partition(Alloc(s)) && s.lock != Some(s.unused[0]) && s.procs[s.unused[0]].state == UNUSED
    ensures Sorted(s.l2, Alloc(s).procs)
  {
    var t := Alloc(s);
    var p := s.unused[0];
    assert Belongs(s.procs, s.lock, InUnused, p);
    if s.lock == Some(p) { HolderActive(s); }
    assert !Belongs(s.procs, s.lock, InL0, p);
    assert !Belongs(s.procs, s.lock, InL1, p);
    assert !Belongs(s.procs, s.lock, InL2, p);
    assert !Belongs(s.procs, s.lock, InSleep, p);
    Unlink(s, p, t.procs[p], t);
    PartitionNowhere(t, p);
  }

  lemma AllocKeeps(s: State)
    requires Inv(s)
    ensures Inv(Alloc(s))
  {
    var t := Alloc(s);
    if s.unused != [] {
      var p := s.unused[0];
      AllocQueues(s);
      assert ParentOk(s, p) && ChanOk(s, p);
      FamilyChange(s, p, t.procs[p], t);
      assert LockOk(t);
    }
  }

  // A slot that belongs in no queue completes the partition by being in none.
  lemma PartitionNowhere(s: State, p: nat)
    requires PartitionBut(s, p) && p < |s.procs| && s.procs[p].state in {EMBRYO, RUNNING, ZOMBIE}
    ensures Partition(s)
  {
  }

  lemma EmbryoFacts(s: State, e: nat)
    requires Core(s) && e < |s.procs| && s.procs[e].state in {EMBRYO, ZOMBIE}
    ensures e !in s.l0 && e !in s.l1 && e !in s.l2 && e !in s.sleep && e !in s.unused
    ensures s.lock != Some(e)
  {
    if s.lock == Some(e) { HolderActive(s); }
    assert !Belongs(s.procs, s.lock, InL0, e);
    assert !Belongs(s.procs, s.lock, InL1, e);
    assert !Belongs(s.procs, s.lock, InL2, e);
    assert !Belongs(s.procs, s.lock, InSleep, e);
    assert !Belongs(s.procs, s.lock, InUnused, e);
  }

  lemma ForkFailKeeps(s: State, e: nat)
    requires Inv(s) && e < |s.procs| && s.procs[e].state == EMBRYO
    ensures Inv(ForkFail(s, e))
  {
    hide Sorted;
    var t := ForkFail(s, e);
    EmbryoFacts(s, e);
    Unlink(s, e, t.procs[e], t.(unused := s.unused));
    AppendMembers(s.unused, e);
    assert Belongs(t.procs, t.lock, InUnused, e);
    assert ParentOk(s, e) && ChanOk(s, e);
    FamilyChange(s, e, t.procs[e], t);
    SortedElsewhere(s.l2, s.procs, e, t.procs[e]);
  }

  lemma ForkFinishQueues(s: State, e: nat)
    requires Inv(s) && e < |s.procs| && s.procs[e].state == EMBRYO && s.cur.Some?
    ensures Partition(ForkFinish(s, e)) && Sorted(s.l2, ForkFinish(s, e).procs)
  {
    var t := ForkFinish(s, e);
    EmbryoFacts(s, e);
    Unlink(s, e, t.procs[e], t.(l0 := s.l0));
    AppendMembers(s.l0, e);
    assert Belongs(t.procs, t.lock, InL0, e);
  }

  lemma ForkFinishKeeps(s: State, e: nat)
    requires Inv(s) && e < |s.procs| && s.procs[e].state == EMBRYO && s.cur.Some?
    ensures Inv(ForkFinish(s, e))
  {
    var t := ForkFinish(s, e);
    ForkFinishQueues(s, e);
    RunningFacts(s);
    assert ParentOk(s, e) && ChanOk(s, e);
    FamilyChange(s, e, t.procs[e], t);
  }

  // -------------------------------------------------- edits that commute with Wake

  lemma {:induction false} FirstAboveSame(q: seq<nat>, a: seq<Pcb>, b: seq<Pcb>, v: int)
    requires InRange(q, |a|) && InRange(q, |b|)
    requires forall x :: x in q ==> a[x].priority == b[x].priority
    ensures FirstAbove(q, a, v) == FirstAbove(q, b, v)
  {
    if q != [] { FirstAboveSame(q[1..], a, b, v); }
  }

  function WithParent(s: State, i: nat, q: nat): (r: State)
    requires Wf(s) && i < |s.procs| && q < |s.procs|
    ensures Wf(r)
  {
    s.(procs := s.procs[i := s.procs[i].(parent := Some(q))])
  }

  function WithKilled(s: State, i: nat): (r: State)
    requires Wf(s) && i < |s.procs|
    ensures Wf(r)
  {
    s.(procs := s.procs[i := s.procs[i].(killed := true)])
  }

  // Where a process is put depends on the levels and priorities only.
  lemma EnqueueSame(s: State, procs: seq<Pcb>, p: nat)
    requires Wf(s) && Wf(s.(procs := procs)) && |procs| == |s.procs| && p < |procs|
    requires procs[p].level == s.procs[p].level
    requires forall i: nat :: i < |procs| ==> procs[i].priority == s.procs[i].priority
    ensures Enqueue(s.(procs := procs), p) == Enqueue(s, p).(procs := procs)
  {
    FirstAboveSame(s.l2, s.procs, procs, procs[p].priority);
  }

  lemma WakeSame(s: State, t: State, p: nat)
    requires Wf(s) && Wf(t) && t == s.(procs := t.procs) && |t.procs| == |s.procs| && p < |s.procs|
    requires t.procs[p].level == s.procs[p].level
    requires forall i: nat :: i < |s.procs| ==> t.procs[i].priority == s.procs[i].priority
    ensures Wake(t, p) == Wake(s, p).(procs := t.procs[p := t.procs[p].(state := RUNNABLE)])
  {
    WithoutInRange(s.sleep, p, |s.procs|);
    var u := s.(sleep := Without(s.sleep, p), procs := s.procs[p := s.procs[p].(state := RUNNABLE)]);
    EnqueueSame(u, t.procs[p := t.procs[p].(state := RUNNABLE)], p);
  }

  lemma WakeWithParent(s: State, p: nat, i: nat, q: nat)
    requires Wf(s) && p < |s.procs| && i < |s.procs| && q < |s.procs|
    ensures Wake(WithParent(s, i, q), p) == WithParent(Wake(s, p), i, q)
  {
    var t := WithParent(s, i, q);
    WakeSame(s, t, p);
    var a := s.procs[p := s.procs[p].(state := RUNNABLE)];
    assert t.procs[p := t.procs[p].(state := RUNNABLE)] == a[i := a[i].(parent := Some(q))];
  }

  lemma {:induction false} WakeEachWithParent(s: State, todo: seq<nat>, c: Chan, i: nat, q: nat)
    requires Wf(s) && InRange(todo, |s.procs|) && i < |s.procs| && q < |s.procs|
    ensures WakeEach(WithParent(s, i, q), todo, c) == WithParent(WakeEach(s, todo, c), i, q)
    decreases |todo|
  {
    if todo != [] {
      if s.procs[todo[0]].chan == c {
        WakeWithParent(s, todo[0], i, q);
        WakeEachWithParent(Wake(s, todo[0]), todo[1..], c, i, q);
      } else {
        WakeEachWithParent(s, todo[1..], c, i, q);
      }
    }
  }

  lemma WakeWithKilled(s: State, p: nat)
    requires Wf(s) && p < |s.procs|
    ensures Wake(WithKilled(s, p), p) == WithKilled(Wake(s, p), p)
  {
    var t := WithKilled(s, p);
    WakeSame(s, t, p);
    var a := s.procs[p := s.procs[p].(state := RUNNABLE)];
    assert t.procs[p := t.procs[p].(state := RUNNABLE)] == a[p := a[p].(killed := true)];
  }

  // -------------------------------------------------------------------- kill

  // An edit that touches neither state, level, lock nor any queue.
  lemma SameQueues(s: State, t: State)
    requires Partition(s) && |t.procs| == |s.procs| && t.lock == s.lock
    requires t.l0 == s.l0 && t.l1 == s.l1 && t.l2 == s.l2 && t.sleep == s.sleep && t.unused == s.unused
    requires forall i: nat :: i < |s.procs| ==>
      t.procs[i].state == s.procs[i].state && t.procs[i].level == s.procs[i].level
    ensures Partition(t)
  {
    forall x: nat, place: Place
      ensures Belongs(s.procs, s.lock, place, x) <==> Belongs(t.procs, s.lock, place, x)
    {
    }
  }

  lemma WithKilledKeeps(s: State, p: nat)
    requires Core(s) && p < |s.procs| && s.procs[p].state != SLEEPING
    ensures Core(WithKilled(s, p))
  {
    hide Sorted;
    var t := WithKilled(s, p);
    SameQueues(s, t);
    assert ParentOk(s, p) && ChanOk(s, p);
    FamilyChange(s, p, t.procs[p], t);
    SortedElsewhere(s.l2, s.procs, p, t.procs[p]);
  }

  lemma KillKeeps(s: State, pid: int)
    requires Inv(s)
    ensures Inv(Kill(s, pid))
  {
    var k := FirstPid(s.procs, pid, 0);
    if k < |s.procs| {
      if s.procs[k].state == SLEEPING {
        WakeKeeps(s, k);
        WakeWithKilled(s, k);
        WithKilledKeeps(Wake(s, k), k);
      } else {
        WithKilledKeeps(s, k);
      }
    }
  }

  // ------------------------------------------------------------- setPriority

  lemma WithPriorityKeeps(s: State, p: nat, v: int)
    requires Inv(s) && p < |s.procs|
    ensures var t := WithPriority(s, p, v);
      && Partition(t) && CpuOk(t) && LockOk(t) && Family(t) && PidsOk(t) && EmbryosOk(t)
      && (p !in s.l2 ==> Inv(t))
  {
    var t := WithPriority(s, p, v);
    SameQueues(s, t);
    FamilySame(s, t);
    assert p !in s.l2 ==> Sorted(t.l2, t.procs);
  }

  // The moved process is taken out and put back in its new place.
  lemma RearrangeKeeps(s: State, p: nat, v: int)
    requires Inv(s) && p in s.l2
    ensures Inv(Rearrange(WithPriority(s, p, v), p))
  {
    var t := WithPriority(s, p, v);
    var u := Rearrange(t, p);
    WithPriorityKeeps(s, p, v);
    var r := Without(t.l2, p);
    WithoutInRange(t.l2, p, |t.procs|);
    WithoutMembers(t.l2, p);
    WithoutSorted(s.l2, s.procs, p);
    assert Sorted(r, t.procs) by {
      forall i | 0 <= i < |r| ensures t.procs[r[i]] == s.procs[r[i]] { assert r[i] in r; }
    }
    ByPrioritySorted(r, t.procs, p);
    InsertAtMembers(r, FirstAbove(r, t.procs, t.procs[p].priority), p);
    FamilySame(t, u);
  }

  lemma SetPriorityKeeps(s: State, pid: int, v: int)
    requires Inv(s) && s.cur.Some?
    ensures Inv(SetPriority(s, pid, v))
  {
    var k := LastPid(s.procs, pid, |s.procs|);
    if k.Some? && s.procs[k.value].state != UNUSED {
      var p := k.value;
      InL2Exactly(s, p);
      if s.procs[p].level == 2 && s.procs[p].state == RUNNABLE {
        RearrangeKeeps(s, p, v);
      } else {
        WithPriorityKeeps(s, p, v);
      }
    }
  }

  // While a process runs, the test in setPriority finds exactly the members of L2.
  lemma InL2Exactly(s: State, p: nat)
    requires Inv(s) && s.cur.Some? && p < |s.procs|
    ensures p in s.l2 <==> s.procs[p].level == 2 && s.procs[p].state == RUNNABLE
  {
    if s.lock == Some(p) { HolderActive(s); }
    assert p in s.l2 <==> Belongs(s.procs, s.lock, InL2, p);
  }

  lemma FaultKeeps(s: State)
    requires Inv(s) && s.cur.Some?
    ensures Inv(Fault(s))
  {
    RunningFacts(s);
    WithKilledKeeps(s, s.cur.value);
  }

  // -------------------------------------------------------------- exit, wait

  // Waking can only end waits; it leaves parents and all other states alone.
  lemma WakeupWaits(s: State, c: Chan, p: nat)
    requires Core(s)
    ensures Waiting(Wakeup(s, c), p) ==> Waiting(s, p)
    ensures c == EntryOf(p) ==> !Waiting(Wakeup(s, c), p)
  {
    WakeupKeeps(s, c);
  }

  lemma ReparentOneKeeps(s: State, me: nat, i: nat)
    requires Core(s) && s.cur == Some(me) && me != s.init && i < |s.procs| && me < |s.procs|
    ensures Core(ReparentOne(s, me, i))
    ensures ReparentedFrom(s, me, i, ReparentOne(s, me, i))
  {
    if s.procs[i].parent != Some(me) {
      assert ReparentOne(s, me, i) == s;
    } else if s.procs[i].state == ZOMBIE {
      ReparentZombie(s, me, i);
    } else {
      ReparentLive(s, me, i);
    }
  }

  lemma ReparentLive(s: State, me: nat, i: nat)
    requires Core(s) && s.cur == Some(me) && me != s.init && me < |s.procs|
    requires IsChild(s, me, i) && s.procs[i].state != ZOMBIE
    ensures Core(ReparentOne(s, me, i))
    ensures ReparentedFrom(s, me, i, ReparentOne(s, me, i))
  {
    assert ParentOk(s, i);
    assert ReparentOne(s, me, i) == WithParent(s, i, s.init);
    WithParentKeeps(s, me, i);
  }

  // Slot i has left me and no slot has joined.
  ghost predicate ReparentedFrom(s: State, me: nat, i: nat, t: State)
    requires me < |s.procs|
  {
    && OnlyWakes(s, t)
    && t.procs[me] == s.procs[me]
    && (forall j: nat :: IsChild(t, me, j) ==> IsChild(s, me, j) && j != i)
  }

  // Between two entries of one slot: at most a wakeup and a change of parent.
  predicate OnlyWoken(a: Pcb, b: Pcb) {
    && b == a.(parent := b.parent, state := b.state)
    && (b.state == a.state || (a.state == SLEEPING && b.state == RUNNABLE))
  }

  ghost predicate OnlyWakes(s: State, t: State) {
    && |t.procs| == |s.procs|
    && t.(procs := s.procs, l0 := s.l0, l1 := s.l1, l2 := s.l2, sleep := s.sleep) == s
    && s.l0 <= t.l0
    && (forall j: nat :: j < |s.procs| ==> OnlyWoken(s.procs[j], t.procs[j]))
  }

  lemma OnlyWakesTrans(s: State, t: State, u: State)
    requires OnlyWakes(s, t) && OnlyWakes(t, u)
    ensures OnlyWakes(s, u)
  {
    forall j: nat | j < |s.procs| ensures OnlyWoken(s.procs[j], u.procs[j]) {
      assert OnlyWoken(s.procs[j], t.procs[j]) && OnlyWoken(t.procs[j], u.procs[j]);
    }
  }

  lemma ReparentZombie(s: State, me: nat, i: nat)
    requires Core(s) && s.cur == Some(me) && me != s.init && me < |s.procs|
    requires IsDeadChild(s, me, i)
    ensures Core(ReparentOne(s, me, i))
    ensures ReparentedFrom(s, me, i, ReparentOne(s, me, i))
  {
    hide Holds, Sorted, LockOk, PidsOk, EmbryosOk;
    var c := EntryOf(s.init);
    var w := Wakeup(s, c);
    assert ParentOk(s, i);
    WakeupKeeps(s, c);
    WakeEachWithParent(s, s.sleep, c, i, s.init);
    assert ReparentOne(s, me, i) == WithParent(w, i, s.init);
    WithParentKeeps(w, me, i);
  }

  lemma WithParentKeeps(s: State, me: nat, i: nat)
    requires Core(s) && s.cur == Some(me) && i < |s.procs| && s.procs[i].parent == Some(me)
    requires s.procs[i].state == ZOMBIE ==> !Waiting(s, s.init)
    ensures Core(WithParent(s, i, s.init))
  {
    hide Holds, Sorted;
    var t := WithParent(s, i, s.init);
    RunningFacts(s);
    SameQueues(s, t);
    assert ParentOk(s, i) && ChanOk(s, i) && WaitOk(s, i);
    assert WaitOk(t, i) by {
      if Waiting(t, i) {
        var d: nat :| IsChild(s, i, d);
        assert IsChild(t, i, d);
        forall d: nat ensures !IsDeadChild(t, i, d) { assert !IsDeadChild(s, i, d); }
      }
    }
    FamilyChange(s, i, t.procs[i], t);
    SortedElsewhere(s.l2, s.procs, i, t.procs[i]);
  }

  lemma {:induction false} ReparentKeeps(s: State, me: nat, i: nat)
    requires Core(s) && s.cur == Some(me) && me != s.init && i <= |s.procs| && me < |s.procs|
    requires forall j: nat :: IsChild(s, me, j) ==> i <= j
    ensures Core(Reparent(s, me, i)) && OnlyWakes(s, Reparent(s, me, i))
    ensures Reparent(s, me, i).procs[me] == s.procs[me]
    ensures forall j: nat :: !IsChild(Reparent(s, me, i), me, j)
    decreases |s.procs| - i
  {
    hide Wf, Partition, Sorted, CpuOk, LockOk, Family, PidsOk, EmbryosOk, ReparentOne;
    if i < |s.procs| {
      var t := ReparentOne(s, me, i);
      ReparentOneKeeps(s, me, i);
      ReparentKeeps(t, me, i + 1);
      OnlyWakesTrans(s, t, Reparent(s, me, i));
    }
  }

  lemma {:induction false} WakeEachParents(s: State, todo: seq<nat>, c: Chan)
    requires Wf(s) && InRange(todo, |s.procs|)
    ensures forall j :: 0 <= j < |s.procs| ==> WakeEach(s, todo, c).procs[j].parent == s.procs[j].parent
    ensures WakeEach(s, todo, c).init == s.init
    decreases |todo|
  {
    if todo != [] {
      WakeEachParents(if s.procs[todo[0]].chan == c then Wake(s, todo[0]) else s, todo[1..], c);
    }
  }

  lemma ReparentOneParents(s: State, me: nat, i: nat)
    requires Wf(s) && i < |s.procs|
    ensures var t := ReparentOne(s, me, i);
      t.init == s.init && forall j: nat :: j < |s.procs| ==>
        t.procs[j].parent == if j == i && IsChild(s, me, j) then Some(s.init) else s.procs[j].parent
  {
    if IsDeadChild(s, me, i) {
      var t := WithParent(s, i, s.init);
      WakeEachParents(t, t.sleep, EntryOf(s.init));
    }
  }

  // The loop of exit() gives every child of me, and nobody else, to init.
  lemma {:induction false} ReparentParents(s: State, me: nat, i: nat)
    requires Wf(s) && i <= |s.procs|
    ensures var t := Reparent(s, me, i);
      t.init == s.init && forall j: nat :: j < |s.procs| ==>
        t.procs[j].parent == if i <= j && IsChild(s, me, j) then Some(s.init) else s.procs[j].parent
    decreases |s.procs| - i
  {
    hide Wf, ReparentOne;
    if i < |s.procs| {
      ReparentOneParents(s, me, i);
      ReparentParents(ReparentOne(s, me, i), me, i + 1);
    }
  }

  // Which sleepers the children of me wake when they are handed on.
  ghost predicate Hears(s: State, me: nat, b: Pcb) {
    b.state == SLEEPING && b.chan == EntryOf(s.init) && exists z: nat :: IsDeadChild(s, me, z)
  }

  // An entry after all children of me have gone to init.
  ghost function HandedOn(s: State, me: nat, b: Pcb): (r: Pcb) {
    b.(parent := if b.parent == Some(me) then Some(s.init) else b.parent,
       state := if Hears(s, me, b) then RUNNABLE else b.state)
  }

  lemma ReparentOneTable(s: State, me: nat, i: nat)
    requires Core(s) && i < |s.procs|
    ensures var t := ReparentOne(s, me, i);
      |t.procs| == |s.procs| && t.init == s.init && forall j: nat :: j < |s.procs| ==>
        t.procs[j] == s.procs[j].(
          parent := if j == i && IsChild(s, me, j) then Some(s.init) else s.procs[j].parent,
          state := if IsDeadChild(s, me, i) && s.procs[j].state == SLEEPING && s.procs[j].chan == EntryOf(s.init)
                   then RUNNABLE else s.procs[j].state)
  {
    hide Holds, Sorted, CpuOk, LockOk, PidsOk, EmbryosOk;
    if IsDeadChild(s, me, i) {
      assert ReparentOne(s, me, i) == Wakeup(WithParent(s, i, s.init), EntryOf(s.init));
      WakeupKeeps(s, EntryOf(s.init));
      WakeEachWithParent(s, s.sleep, EntryOf(s.init), i, s.init);
    }
  }

  lemma {:induction false} ReparentTable(s: State, me: nat, i: nat)
    requires Core(s) && s.cur == Some(me) && me != s.init && i <= |s.procs| && me < |s.procs|
    requires forall j: nat :: IsChild(s, me, j) ==> i <= j
    ensures var t := Reparent(s, me, i);
      forall j: nat :: j < |s.procs| ==> t.procs[j] == HandedOn(s, me, s.procs[j])
    decreases |s.procs| - i
  {
    hide Wf, Partition, Sorted, CpuOk, LockOk, Family, PidsOk, EmbryosOk, ReparentOne, Hears;
    if i < |s.procs| {
      var t := ReparentOne(s, me, i);
      ReparentOneKeeps(s, me, i);
      ReparentOneTable(s, me, i);
      ReparentTable(t, me, i + 1);
      forall j: nat | j < |s.procs| ensures HandedOn(t, me, t.procs[j]) == HandedOn(s, me, s.procs[j]) {
        HandedOnTwice(s, me, i, t, j);
      }
    } else {
      NoneHears(s, me);
    }
  }

  lemma NoneHears(s: State, me: nat)
    requires forall j: nat :: !IsChild(s, me, j)
    ensures forall j: nat :: j < |s.procs| ==> HandedOn(s, me, s.procs[j]) == s.procs[j]
  {
    forall j: nat | j < |s.procs| ensures HandedOn(s, me, s.procs[j]) == s.procs[j] {
      assert !IsChild(s, me, j);
    }
  }

  lemma HandedOnTwice(s: State, me: nat, i: nat, t: State, j: nat)
    requires i < |s.procs| && j < |s.procs| && |t.procs| == |s.procs| && t.init == s.init && me != s.init
    requires forall j: nat :: j < |s.procs| ==>
      t.procs[j] == s.procs[j].(
        parent := if j == i && IsChild(s, me, j) then Some(s.init) else s.procs[j].parent,
        state := if IsDeadChild(s, me, i) && s.procs[j].state == SLEEPING && s.procs[j].chan == EntryOf(s.init)
                 then RUNNABLE else s.procs[j].state)
    ensures HandedOn(t, me, t.procs[j]) == HandedOn(s, me, s.procs[j])
  {
    forall z: nat ensures IsDeadChild(t, me, z) <==> IsDeadChild(s, me, z) && z != i {
    }
    if exists z: nat :: IsDeadChild(s, me, z) {
      var z: nat :| IsDeadChild(s, me, z);
      assert z != i ==> IsDeadChild(t, me, z);
    }
  }

  lemma ExitKeeps(s: State)
    requires Inv(s) && s.cur.Some? && s.cur.value != s.init
    ensures Inv(Exit(s))
  {
    var me := s.cur.value;
    RunningFacts(s);
    assert ParentOk(s, me);
    var c := ParentChan(s.procs[me]);
    WakeupKeeps(s, c);
    WakeupWaits(s, c, s.procs[me].parent.value);
    var w := Wakeup(s, c);
    ReparentKeeps(w, me, 0);
    var t := Reparent(w, me, 0);
    var parent := s.procs[me].parent.value;
    assert OnlyWoken(w.procs[parent], t.procs[parent]);
    DieKeeps(t, me);
  }

  // A running process without children, whose parent does not sleep in wait(),
  // may become a zombie.
  lemma DieKeeps(s: State, me: nat)
    requires Core(s) && s.cur == Some(me) && me != s.init
    requires forall j: nat :: !IsChild(s, me, j)
    requires s.procs[me].parent.Some? && !Waiting(s, s.procs[me].parent.value)
    ensures Inv(SwitchBack(s.(lock := None, procs := s.procs[me := s.procs[me].(state := ZOMBIE)])))
  {
    hide Sorted;
    var b := s.procs[me].(state := ZOMBIE);
    var t := s.(lock := None, procs := s.procs[me := b]);
    var u := t.(cur := None);
    RunningFacts(s);
    ReleaseQueues(s);
    Unlink(s.(lock := None), me, b, t);
    PartitionNowhere(t, me);
    assert ParentOk(s, me);
    FamilyChange(s, me, b, u);
    SortedElsewhere(s.l2, s.procs, me, b);
    SwitchBackKeeps(t);
  }

  lemma WaitKeeps(s: State)
    requires Inv(s) && s.cur.Some?
    ensures Inv(Wait(s))
  {
    var me := s.cur.value;
    var z := FirstDead(s, me, 0);
    RunningFacts(s);
    if z < |s.procs| {
      ReapKeeps(s, z);
    } else if !s.procs[me].killed && exists i :: 0 <= i < |s.procs| && IsChild(s, me, i) {
      SleepKeeps(s, EntryOf(me));
    }
  }

  lemma ReapQueues(s: State, z: nat, t: State)
    requires Inv(s) && s.cur.Some? && IsDeadChild(s, s.cur.value, z)
    requires t == s.(procs := s.procs[z := Reaped(s.procs[z])], unused := s.unused + [z])
    ensures Partition(t)
  {
    hide Sorted, Family, PidsOk, EmbryosOk;
    RunningFacts(s);
    EmbryoFacts(s, z);
    Unlink(s, z, t.procs[z], t.(unused := s.unused));
    AppendMembers(s.unused, z);
    assert Belongs(t.procs, t.lock, InUnused, z);
  }

  lemma ReapKeeps(s: State, z: nat)
    requires Inv(s) && s.cur.Some? && IsDeadChild(s, s.cur.value, z)
    ensures Inv(s.(procs := s.procs[z := Reaped(s.procs[z])], unused := s.unused + [z]))
  {
    hide Sorted, Holds;
    var b := Reaped(s.procs[z]);
    var t := s.(procs := s.procs[z := b], unused := s.unused + [z]);
    RunningFacts(s);
    EmbryoFacts(s, z);
    ReapQueues(s, z, t);
    assert ParentOk(s, z) && ChanOk(s, z);
    FamilyChange(s, z, b, t);
    SortedElsewhere(s.l2, s.procs, z, b);
  }

  // --------------------------------------------------------------- main results

  lemma StepKeeps(s: State, st: Step)
    requires Inv(s) && Enabled(s, st)
    ensures Inv(Apply(s, st))
  {
    match st
    case DoDispatch => DispatchKeeps(s);
    case DoYield => YieldKeeps(s);
    case DoSleep(a) => SleepKeeps(s, Address(a));
    case DoWait => WaitKeeps(s);
    case DoExit => ExitKeeps(s);
    case DoAlloc => AllocKeeps(s);
    case DoForkFail(e) => ForkFailKeeps(s, e);
    case DoForkFinish(e) => ForkFinishKeeps(s, e);
    case DoWakeup(c) => WakeupKeeps(s, c);
    case DoKill(pid) => KillKeeps(s, pid);
    case DoSetPriority(pid, v) => SetPriorityKeeps(s, pid, v);
    case DoLock => LockKeeps(s);
    case DoUnlock => UnlockKeeps(s);
    case DoFault => FaultKeeps(s);
  }

  lemma BootInv(n: nat)
    requires n > 0
    ensures Inv(Boot(n))
  {
    hide Holds;
    var s := Boot(n);
    BootQueues(n);
    forall p: nat ensures WaitOk(s, p) {}
  }

  lemma BootQueues(n: nat)
    requires n > 0
    ensures Partition(Boot(n))
  {
    var s := Boot(n);
    assert s.unused == seq(n, i => i)[1..];
    assert Distinct(s.unused);
    forall x: nat
      ensures x in s.unused <==> Belongs(s.procs, s.lock, InUnused, x)
    {
      if 0 < x < n { assert s.unused[x - 1] == x; }
    }
  }
}
