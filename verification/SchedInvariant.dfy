// What holds of the scheduler between any two critical sections, clause by clause.
module SchedInvariant {
  import opened Wrappers
  import opened Slots
  import opened Sched

  // ------------------------------------------------------ the queue partition

  datatype Place = InL0 | InL1 | InL2 | InSleep | InUnused | Nowhere

  // The queue that a process of this state must be linked in. The lock holder
  // is parked in L0 whatever its level.
  function PlaceOf(b: Pcb, holder: bool): (r: Place) {
    match b.state
    case UNUSED => InUnused
    case SLEEPING => InSleep
    case RUNNABLE =>
      if holder || b.level == 0 then InL0 else if b.level == 1 then InL1 else InL2
    case _ => Nowhere
  }

  predicate Belongs(procs: seq<Pcb>, lock: Option<nat>, place: Place, p: nat) {
    p < |procs| && PlaceOf(procs[p], lock == Some(p)) == place
  }

  ghost predicate Holds(q: seq<nat>, procs: seq<Pcb>, lock: Option<nat>, place: Place) {
    && Distinct(q)
    && forall p: nat :: p in q <==> Belongs(procs, lock, place, p)
  }

  // Each slot is linked in exactly the queue that its state demands.
  ghost predicate Partition(s: State) {
    && Holds(s.l0, s.procs, s.lock, InL0)
    && Holds(s.l1, s.procs, s.lock, InL1)
    && Holds(s.l2, s.procs, s.lock, InL2)
    && Holds(s.sleep, s.procs, s.lock, InSleep)
    && Holds(s.unused, s.procs, s.lock, InUnused)
  }

  // As Holds, but p is not linked anywhere.
  ghost predicate HoldsBut(q: seq<nat>, procs: seq<Pcb>, lock: Option<nat>, place: Place, p: nat) {
    && Distinct(q)
    && forall x: nat :: x in q <==> Belongs(procs, lock, place, x) && x != p
  }

  ghost predicate PartitionBut(s: State, p: nat) {
    && HoldsBut(s.l0, s.procs, s.lock, InL0, p)
    && HoldsBut(s.l1, s.procs, s.lock, InL1, p)
    && HoldsBut(s.l2, s.procs, s.lock, InL2, p)
    && HoldsBut(s.sleep, s.procs, s.lock, InSleep, p)
    && HoldsBut(s.unused, s.procs, s.lock, InUnused, p)
  }

  // -------------------------------------------------------- order, CPU, lock

  ghost predicate Sorted(q: seq<nat>, procs: seq<Pcb>)
    requires InRange(q, |procs|)
  {
    forall i, j :: 0 <= i < j < |q| ==> procs[q[i]].priority <= procs[q[j]].priority
  }

  // The one CPU runs the one RUNNING process.
  ghost predicate CpuOk(s: State) {
    forall p: nat :: p < |s.procs| ==> (s.procs[p].state == RUNNING <==> s.cur == Some(p))
  }

  // The lock holder is on the CPU or first in line for it. The process that
  // last unlocked still has a fresh account.
  ghost predicate LockOk(s: State) {
    && (s.lock.Some? ==> s.cur == s.lock || (s.cur == None && s.l0 != [] && s.l0[0] == s.lock.value))
    && (forall p: nat :: p < |s.procs| && s.unlock == Some(p) ==> s.procs[p].level == 0 && s.procs[p].ticks == 0)
  }

  // ------------------------------------------------------------------ family

  predicate Alive(b: Pcb) {
    b.state in {SLEEPING, RUNNABLE, RUNNING}
  }

  predicate Waiting(s: State, p: nat) {
    p < |s.procs| && s.procs[p].state == SLEEPING && s.procs[p].chan == EntryOf(p)
  }

  // A process has a parent exactly when it was forked and not yet reaped.
  predicate ParentOk(s: State, i: nat)
    requires i < |s.procs|
  {
    match s.procs[i].parent
    case None => s.procs[i].state in {UNUSED, EMBRYO} || i == s.init
    case Some(q) =>
      q < |s.procs| && Alive(s.procs[q]) && q != i && i != s.init
      && (Alive(s.procs[i]) || s.procs[i].state == ZOMBIE)
  }

  predicate ChanOk(s: State, i: nat)
    requires i < |s.procs|
  {
    && (s.procs[i].chan.EntryOf? ==> s.procs[i].chan.slot == i)
    && (s.procs[i].state !in {SLEEPING, RUNNABLE} ==> s.procs[i].chan == NoChan)
    && (s.procs[i].state == SLEEPING ==> s.procs[i].chan != NoChan)
  }

  // No lost child exit: a process asleep in wait() has a child to wait for,
  // none of its children is dead already, and nobody has killed it.
  ghost predicate WaitOk(s: State, p: nat) {
    Waiting(s, p) ==>
      && (exists c: nat :: IsChild(s, p, c))
      && (forall c: nat :: !IsDeadChild(s, p, c))
      && !s.procs[p].killed
  }

  // Once a table entry changes, every clause about other entries still holds
  // unless the entry left its parent, died, or gave up its children.
  lemma FamilyChange(s: State, p: nat, b: Pcb, t: State)
    requires Family(s) && p < |s.procs| && t.procs == s.procs[p := b] && t.init == s.init
    requires ParentOk(t, p) && ChanOk(t, p) && WaitOk(t, p)
    requires Alive(s.procs[p]) && !Alive(b) ==> p != s.init && forall i: nat :: !IsChild(s, p, i)
    requires b.parent != s.procs[p].parent && s.procs[p].parent.Some? ==> !Waiting(s, s.procs[p].parent.value)
    requires b.state == ZOMBIE && b.parent.Some? && (b.state, b.parent) != (s.procs[p].state, s.procs[p].parent)
      ==> !Waiting(s, b.parent.value)
    ensures Family(t)
  {
    forall i: nat | i < |t.procs| ensures ParentOk(t, i) && ChanOk(t, i) {
      assert ParentOk(s, i) && ChanOk(s, i);
      if s.procs[i].parent == Some(p) { assert IsChild(s, p, i); }
    }
    forall i: nat ensures WaitOk(t, i) {
      assert WaitOk(s, i);
      if i != p && Waiting(t, i) {
        var c: nat :| IsChild(s, i, c);
        assert IsChild(t, i, c);
        forall d: nat ensures !IsDeadChild(t, i, d) { assert !IsDeadChild(s, i, d); }
      }
    }
  }

  ghost predicate Family(s: State) {
    && s.init < |s.procs| && Alive(s.procs[s.init])
    && (forall i: nat :: i < |s.procs| ==> ParentOk(s, i))
    && (forall i: nat :: i < |s.procs| ==> ChanOk(s, i))
    && (forall p: nat :: WaitOk(s, p))
  }

  // Process numbers of the slots in use are positive and never given twice.
  ghost predicate PidsOk(s: State) {
    && s.nextpid > 0
    && (forall i: nat :: i < |s.procs| ==> 0 <= s.procs[i].pid < s.nextpid)
    && (forall i: nat :: i < |s.procs| && s.procs[i].state != UNUSED ==> s.procs[i].pid != 0)
    && (forall i: nat, j: nat :: i < j < |s.procs| && s.procs[i].pid == s.procs[j].pid ==> s.procs[i].pid == 0)
  }

  // A process under construction has a fresh account.
  ghost predicate EmbryosOk(s: State) {
    forall i: nat :: i < |s.procs| && s.procs[i].state == EMBRYO ==> s.procs[i].level == 0 && s.procs[i].ticks == 0
  }

  // Holds also in the middle of a critical section, before the switch back.
  ghost predicate Core(s: State) {
    Wf(s) && Partition(s) && Sorted(s.l2, s.procs) && CpuOk(s) && LockOk(s) && Family(s) && PidsOk(s)
    && EmbryosOk(s) && 0 <= s.gticks <= BOOST_TICKS
  }

  ghost predicate Inv(s: State) {
    Core(s) && s.gticks < BOOST_TICKS
  }

  // ---------------------------------------------------------------- enqueueing

  lemma ByPrioritySorted(q: seq<nat>, procs: seq<Pcb>, p: nat)
    requires InRange(q, |procs|) && p < |procs| && Sorted(q, procs)
    ensures InRange(ByPriority(q, procs, p), |procs|) && Sorted(ByPriority(q, procs, p), procs)
  {
    hide Sorted;
    InsertSorted(q, procs, p, FirstAbove(q, procs, procs[p].priority));
  }

  lemma InsertSorted(q: seq<nat>, procs: seq<Pcb>, p: nat, k: nat)
    requires InRange(q, |procs|) && p < |procs| && Sorted(q, procs) && k <= |q|
    requires k > 0 ==> procs[q[k - 1]].priority <= procs[p].priority
    requires k < |q| ==> procs[q[k]].priority > procs[p].priority
    ensures InRange(InsertAt(q, k, p), |procs|) && Sorted(InsertAt(q, k, p), procs)
  {
    var r := InsertAt(q, k, p);
    forall i, j | 0 <= i < j < |r|
      ensures procs[r[i]].priority <= procs[r[j]].priority
    {
      assert r[i] == if i < k then q[i] else if i == k then p else q[i - 1];
      assert r[j] == if j < k then q[j] else if j == k then p else q[j - 1];
    }
  }

  lemma WithoutSorted(q: seq<nat>, procs: seq<Pcb>, p: nat)
    requires InRange(q, |procs|) && Distinct(q) && Sorted(q, procs)
    ensures InRange(Without(q, p), |procs|) && Sorted(Without(q, p), procs)
  {
    hide Without;
    if p in q {
      var k :| 0 <= k < |q| && q[k] == p;
      WithoutAt(q, k);
    } else {
      WithoutAbsent(q, p);
    }
  }

  // A change of an entry outside q, or of anything but its priority.
  lemma SortedElsewhere(q: seq<nat>, procs: seq<Pcb>, p: nat, b: Pcb)
    requires InRange(q, |procs|) && Sorted(q, procs)
    requires p < |procs| && (p !in q || b.priority == procs[p].priority)
    ensures Sorted(q, procs[p := b])
  {
  }

  lemma EnqueueKeeps(s: State, p: nat)
    requires Wf(s) && p < |s.procs| && PartitionBut(s, p) && Sorted(s.l2, s.procs)
    requires s.procs[p].state == RUNNABLE && s.lock != Some(p)
    ensures Partition(Enqueue(s, p)) && Sorted(Enqueue(s, p).l2, s.procs)
    ensures s.l0 <= Enqueue(s, p).l0
  {
    if s.procs[p].level == 2 {
      ByPrioritySorted(s.l2, s.procs, p);
      InsertAtMembers(s.l2, FirstAbove(s.l2, s.procs, s.procs[p].priority), p);
    } else if s.procs[p].level == 1 {
      AppendMembers(s.l1, p);
    } else {
      AppendMembers(s.l0, p);
    }
  }

  lemma HolderActive(s: State)
    requires Core(s) && s.lock.Some?
    ensures s.lock.value < |s.procs| && s.procs[s.lock.value].state in {RUNNABLE, RUNNING}
    ensures s.procs[s.lock.value].state == RUNNABLE <==> s.cur == None
  {
    if s.cur == None {
      assert s.l0[0] in s.l0;
      assert Belongs(s.procs, s.lock, InL0, s.lock.value);
    }
  }

  // Change the entry of p and take it out of the queue it is in.
  lemma Unlink(s: State, p: nat, b: Pcb, t: State)
    requires Partition(s) && p < |s.procs|
    requires t.procs == s.procs[p := b] && t.lock == s.lock
    requires t.l0 == (if p in s.l0 then Without(s.l0, p) else s.l0)
    requires t.l1 == (if p in s.l1 then Without(s.l1, p) else s.l1)
    requires t.l2 == (if p in s.l2 then Without(s.l2, p) else s.l2)
    requires t.sleep == (if p in s.sleep then Without(s.sleep, p) else s.sleep)
    requires t.unused == (if p in s.unused then Without(s.unused, p) else s.unused)
    ensures PartitionBut(t, p)
  {
    UnlinkOne(s.l0, s.procs, s.lock, InL0, p, b);
    UnlinkOne(s.l1, s.procs, s.lock, InL1, p, b);
    UnlinkOne(s.l2, s.procs, s.lock, InL2, p, b);
    UnlinkOne(s.sleep, s.procs, s.lock, InSleep, p, b);
    UnlinkOne(s.unused, s.procs, s.lock, InUnused, p, b);
  }

  lemma UnlinkOne(q: seq<nat>, procs: seq<Pcb>, lock: Option<nat>, place: Place, p: nat, b: Pcb)
    requires Holds(q, procs, lock, place) && p < |procs|
    ensures HoldsBut(if p in q then Without(q, p) else q, procs[p := b], lock, place, p)
  {
    WithoutMembers(q, p);
    forall x: nat | x != p
      ensures Belongs(procs, lock, place, x) <==> Belongs(procs[p := b], lock, place, x)
    {
    }
  }

  lemma WakeKeeps(s: State, p: nat)
    requires Core(s) && p < |s.procs| && s.procs[p].state == SLEEPING
    ensures Core(Wake(s, p))
    ensures s.l0 <= Wake(s, p).l0
  {
    hide Holds, Sorted;
    var r := Wake(s, p);
    WakeKeepsQueues(s, p);
    assert ParentOk(s, p) && ChanOk(s, p);
    FamilyChange(s, p, r.procs[p], r);
    assert PidsOk(r);
    assert CpuOk(r);
    assert LockOk(r);
  }

  lemma WakeKeepsQueues(s: State, p: nat)
    requires Core(s) && p < |s.procs| && s.procs[p].state == SLEEPING
    ensures Partition(Wake(s, p)) && Sorted(Wake(s, p).l2, Wake(s, p).procs)
    ensures s.l0 <= Wake(s, p).l0
  {
    WithoutInRange(s.sleep, p, |s.procs|);
    var b := s.procs[p].(state := RUNNABLE);
    var t := s.(sleep := Without(s.sleep, p), procs := s.procs[p := b]);
    assert Belongs(s.procs, s.lock, InSleep, p);
    if s.lock == Some(p) { HolderActive(s); }
    Unlink(s, p, b, t);
    EnqueueKeeps(t, p);
  }
}
