// The order inside the queues.
module SchedQueues {
  import opened Wrappers
  import opened Slots
  import opened Sched
  import opened SchedInvariant
  import opened SchedSteps
  import opened SchedEffects
  import opened SchedFifo
  import SchedOrder
  import opened SchedFront
  import opened SchedTable

  // ----------------------------------------------------------------- dispatch

  lemma HeadBefore(q: seq<nat>, x: nat)
    requires q != [] && x in q && x != q[0]
    ensures Before(q, q[0], x)
  {
  }

  // The process dispatched is in front of every other that can run: in a lower
  // level, or in front of it in the same level.
  lemma NextIsFirst(s: State, x: nat)
    requires Inv(s) && CanDispatch(s) && x < |s.procs| && s.procs[x].state == RUNNABLE && x != Next(s)
    ensures x in s.l0 || x in s.l1 || x in s.l2
    ensures x in s.l0 ==> Before(s.l0, Next(s), x)
    ensures x in s.l1 ==> Next(s) in s.l0 || Before(s.l1, Next(s), x)
    ensures x in s.l2 ==> Next(s) in s.l0 || Next(s) in s.l1 || Before(s.l2, Next(s), x)
  {
    assert x in s.l0 <==> Belongs(s.procs, s.lock, InL0, x);
    assert x in s.l1 <==> Belongs(s.procs, s.lock, InL1, x);
    assert x in s.l2 <==> Belongs(s.procs, s.lock, InL2, x);
    hide Core, Before;
    if x in s.l0 { HeadBefore(s.l0, x); }
    if x in s.l1 && s.l0 == [] { HeadBefore(s.l1, x); }
    if x in s.l2 && s.l0 == [] && s.l1 == [] { HeadBefore(s.l2, x); }
  }

  // -------------------------------------------------------------------- boost

  lemma BeforeConcat(a: seq<nat>, b: seq<nat>, x: nat, y: nat)
    requires x in a && y in b
    ensures Before(a + b, x, y)
  {
    var i :| 0 <= i < |a| && a[i] == x;
    var j :| 0 <= j < |b| && b[j] == y;
    assert (a + b)[i] == x && (a + b)[|a| + j] == y;
  }

  lemma BeforeInserted(q: seq<nat>, k: nat, p: nat, x: nat, y: nat)
    requires Before(q, x, y) && k <= |q|
    ensures Before(InsertAt(q, k, p), x, y)
  {
    var i, j :| 0 <= i < j < |q| && q[i] == x && q[j] == y;
    var r := InsertAt(q, k, p);
    assert r[if i < k then i else i + 1] == x && r[if j < k then j else j + 1] == y;
  }

  // Giving up the CPU takes nobody out of a queue and swaps nobody.
  lemma GiveUpOrder(s: State, x: nat, y: nat)
    requires Inv(s) && s.cur.Some?
    ensures var u := GiveUp(s);
      && (x in s.l0 ==> x in u.l0) && (x in s.l1 ==> x in u.l1) && (x in s.l2 ==> x in u.l2)
      && (Before(s.l2, x, y) ==> Before(u.l2, x, y))
  {
    hide Partition, Sorted, CpuOk, LockOk, Family, PidsOk, EmbryosOk, Before, FirstAbove;
    var p := s.cur.value;
    if !Favoured(s, p) {
      var c := Charged(s.(gticks := s.gticks + 1), p);
      var k := FirstAbove(c.l2, c.procs, c.procs[p].priority);
      InsertAtMembers(c.l2, k, p);
      if Before(s.l2, x, y) { BeforeInserted(c.l2, k, p, x, y); }
    }
  }

  // The boost puts level 0 first, then level 1, then level 2, each in its order.
  lemma BoostOrder(s: State, x: nat, y: nat)
    requires Inv(s) && s.cur.Some? && s.gticks == 99
    requires (x in s.l0 && (y in s.l1 || y in s.l2)) || (x in s.l1 && y in s.l2) || Before(s.l2, x, y)
    ensures Before(Yield(s).l0, x, y) && Yield(s).l1 == [] && Yield(s).l2 == []
  {
    hide Partition, Sorted, CpuOk, LockOk, Family, PidsOk, EmbryosOk, Before, GiveUp, Yield;
    GiveUpOrder(s, x, y);
    GiveUpOrder(s, y, x);
    BoostAppends(s);
    BoostEmpties(s);
    LevelsOrder(GiveUp(s).l0, GiveUp(s).l1, GiveUp(s).l2, x, y);
  }

  lemma BoostEmpties(s: State)
    requires Inv(s) && s.cur.Some? && s.gticks == 99
    ensures Yield(s).l1 == [] && Yield(s).l2 == []
  {
    hide Core;
  }

  lemma LevelsOrder(a: seq<nat>, b: seq<nat>, c: seq<nat>, x: nat, y: nat)
    requires (x in a && (y in b || y in c)) || (x in b && y in c) || Before(c, x, y)
    ensures Before(a + (b + c), x, y)
  {
    hide Before;
    if x in a && (y in b || y in c) {
      BeforeConcat(a, b + c, x, y);
    } else if x in b && y in c {
      BeforeConcat(b, c, x, y);
      BeforeInside(a, b + c, [], x, y);
      assert a + (b + c) + [] == a + (b + c);
    } else {
      BeforeInside(a + b, c, [], x, y);
      assert a + b + c + [] == a + (b + c);
    }
  }

  // -------------------------------------------------------------- sleep queue

  // r is what is left of q, in the old order.
  ghost predicate Thins(q: seq<nat>, r: seq<nat>) {
    && Distinct(r) && (forall x :: x in r ==> x in q)
    && forall x, y :: Before(q, x, y) && x in r && y in r ==> Before(r, x, y)
  }

  lemma ThinsSelf(q: seq<nat>)
    requires Distinct(q)
    ensures Thins(q, q)
  {
  }

  lemma ThinsTrans(a: seq<nat>, b: seq<nat>, c: seq<nat>)
    requires Thins(a, b) && Thins(b, c)
    ensures Thins(a, c)
  {
    hide Before;
  }

  lemma WithoutThins(q: seq<nat>, p: nat)
    requires Distinct(q)
    ensures Thins(q, Without(q, p))
  {
    WithoutMembers(q, p);
    hide Before;
    forall x, y | Before(q, x, y) && x in Without(q, p) && y in Without(q, p) ensures Before(Without(q, p), x, y) {
      BeforeWithout(q, p, x, y);
    }
  }

  lemma {:induction false} WakeEachThins(s: State, todo: seq<nat>, c: Chan)
    requires Wf(s) && InRange(todo, |s.procs|) && Distinct(s.sleep)
    ensures Thins(s.sleep, WakeEach(s, todo, c).sleep)
    decreases |todo|
  {
    hide Thins, Wf, Enqueue;
    if todo == [] {
      ThinsSelf(s.sleep);
    } else if s.procs[todo[0]].chan == c {
      WithoutThins(s.sleep, todo[0]);
      ThinsDistinct(s.sleep, Wake(s, todo[0]).sleep);
      WakeEachThins(Wake(s, todo[0]), todo[1..], c);
      ThinsTrans(s.sleep, Wake(s, todo[0]).sleep, WakeEach(s, todo, c).sleep);
    } else {
      WakeEachThins(s, todo[1..], c);
    }
  }

  lemma ThinsDistinct(q: seq<nat>, r: seq<nat>)
    requires Thins(q, r)
    ensures Distinct(r)
  {
  }

  lemma {:induction false} ReparentThins(s: State, me: nat, i: nat)
    requires Wf(s) && i <= |s.procs| && Distinct(s.sleep)
    ensures Thins(s.sleep, Reparent(s, me, i).sleep)
    decreases |s.procs| - i
  {
    hide Thins, Wf;
    if i == |s.procs| {
      ThinsSelf(s.sleep);
    } else {
      var t := ReparentOne(s, me, i);
      ReparentOneThins(s, me, i);
      ThinsDistinct(s.sleep, t.sleep);
      ReparentThins(t, me, i + 1);
      ThinsTrans(s.sleep, t.sleep, Reparent(s, me, i).sleep);
    }
  }

  lemma ReparentOneThins(s: State, me: nat, i: nat)
    requires Wf(s) && i < |s.procs| && Distinct(s.sleep)
    ensures Thins(s.sleep, ReparentOne(s, me, i).sleep)
  {
    hide Thins;
    ThinsSelf(s.sleep);
    if s.procs[i].parent == Some(me) && s.procs[i].state == ZOMBIE {
      var t := s.(procs := s.procs[i := s.procs[i].(parent := Some(s.init))]);
      WakeEachThins(t, t.sleep, EntryOf(s.init));
    }
  }

  lemma ExitThins(s: State)
    requires Inv(s) && s.cur.Some? && s.cur.value != s.init
    ensures Thins(s.sleep, Exit(s).sleep)
  {
    var me := s.cur.value;
    var w := Wakeup(s, ParentChan(s.procs[me]));
    ExitSleep(s);
    hide Thins, Core, Exit, Wakeup, Reparent;
    WakeEachThins(s, s.sleep, ParentChan(s.procs[me]));
    ThinsDistinct(s.sleep, w.sleep);
    ReparentThins(w, me, 0);
    ThinsTrans(s.sleep, w.sleep, Reparent(w, me, 0).sleep);
  }

  lemma ExitSleep(s: State)
    requires Inv(s) && s.cur.Some? && s.cur.value != s.init
    ensures Distinct(s.sleep)
    ensures Exit(s).sleep == Reparent(Wakeup(s, ParentChan(s.procs[s.cur.value])), s.cur.value, 0).sleep
  {
  }

  // Sleepers stay in the order in which they went to sleep: a step that blocks
  // puts its process at the end, and every other step only takes some out.
  lemma SleepOrder(s: State, st: Step)
    requires Inv(s) && Enabled(s, st)
    ensures if Blocks(s, st) then Apply(s, st).sleep == s.sleep + [s.cur.value] else Thins(s.sleep, Apply(s, st).sleep)
  {
    hide Partition, Sorted, CpuOk, LockOk, Family, PidsOk, EmbryosOk, Thins, Exit, Wakeup, Kill, Yield, Wait, SleepOn;
    SleepDistinct(s);
    ThinsSelf(s.sleep);
    match st
    case DoYield => YieldSleep(s);
    case DoSleep(a) => SleepUnused(s, Address(a));
    case DoWait => WaitSleep(s);
    case DoExit => ExitThins(s);
    case DoWakeup(c) => WakeupThins(s, c);
    case DoKill(pid) => KillThins(s, pid);
    case _ =>
  }

  lemma WakeupThins(s: State, c: Chan)
    requires Inv(s)
    ensures Thins(s.sleep, Wakeup(s, c).sleep)
  {
    SleepDistinct(s);
    WakeEachThins(s, s.sleep, c);
  }

  lemma SleepDistinct(s: State)
    requires Inv(s)
    ensures Distinct(s.sleep)
  {
  }

  lemma YieldSleep(s: State)
    requires Inv(s) && s.cur.Some?
    ensures Yield(s).sleep == s.sleep
  {
    hide Core;
  }

  lemma WaitSleep(s: State)
    requires Inv(s) && s.cur.Some?
    ensures Wait(s).sleep == if CanWait(s, s.cur.value) then s.sleep + [s.cur.value] else s.sleep
  {
    hide Partition, Sorted, CpuOk, LockOk, Family, PidsOk, EmbryosOk, SleepOn;
    WaitBlocks(s);
    SleepUnused(s, EntryOf(s.cur.value));
  }

  lemma KillThins(s: State, pid: int)
    requires Inv(s) && s.cur.Some?
    ensures Thins(s.sleep, Kill(s, pid).sleep)
  {
    hide Thins;
    SleepDistinct(s);
    ThinsSelf(s.sleep);
    var k := FirstPid(s.procs, pid, 0);
    WithoutThins(s.sleep, k);
  }

  // ------------------------------------------------------------ two woken at once

  lemma NewBehind(q: seq<nat>, r: seq<nat>, x: nat, y: nat)
    requires q <= r && x in q && y in r && y !in q
    ensures Before(r, x, y)
  {
    var i :| 0 <= i < |q| && q[i] == x;
    var j :| 0 <= j < |r| && r[j] == y;
    assert forall m :: 0 <= m < |q| ==> q[m] == r[m];
  }

  // exit() first wakes the parent, and then hands on the children.
  lemma ExitStages(s: State, p: nat)
    requires Inv(s) && s.cur.Some? && s.cur.value != s.init
    requires p != s.init && HearsExit(s, s.cur.value, p) && HearsExit(s, s.cur.value, s.init)
    ensures var w := Wakeup(s, ParentChan(s.procs[s.cur.value])); var t := Exit(s);
      && Core(w) && w.lock == s.lock && s.lock != Some(p) && w.l0 <= t.l0 && Grows(w, t)
      && w.procs[p] == s.procs[p].(state := RUNNABLE) && w.procs[s.init] == s.procs[s.init]
      && t.procs[s.init].state == RUNNABLE && t.procs[s.init].level == s.procs[s.init].level
      && t.procs[s.init].priority == s.procs[s.init].priority
  {
    hide Partition, Sorted, Family, PidsOk, EmbryosOk, Wakeup, Exit, Reparent;
    var me := s.cur.value;
    var w := Wakeup(s, ParentChan(s.procs[me]));
    WakeupKeeps(s, ParentChan(s.procs[me]));
    RunningFacts(s);
    ExitGrows(s);
    ExitTable(s);
    ReparentKeeps(w, me, 0);
    ExitFront(s);
    assert OnlyWoken(s.procs[s.init], Exit(s).procs[s.init]);
  }

  lemma ExitFront(s: State)
    requires Inv(s) && s.cur.Some? && s.cur.value != s.init
    ensures Exit(s).l0 == Reparent(Wakeup(s, ParentChan(s.procs[s.cur.value])), s.cur.value, 0).l0
  {
    hide Partition, Sorted, LockOk, Family, PidsOk, EmbryosOk;
    WakeupKeeps(s, ParentChan(s.procs[s.cur.value]));
    RunningFacts(s);
    ReparentKeeps(Wakeup(s, ParentChan(s.procs[s.cur.value])), s.cur.value, 0);
  }

  // The process is in the queue of its level, which is also that of no holder.
  lemma InItsQueue(s: State, p: nat)
    requires Core(s) && p < |s.procs| && s.procs[p].state == RUNNABLE && s.lock != Some(p)
    ensures s.procs[p].level == 0 ==> p in s.l0
    ensures s.procs[p].level == 1 ==> p in s.l1
    ensures s.procs[p].level == 2 ==> p in s.l2 && p in Line(s, s.procs[p].priority)
    ensures 0 <= s.procs[p].level <= 2
  {
    assert p in s.l0 <==> Belongs(s.procs, s.lock, InL0, p);
    assert p in s.l1 <==> Belongs(s.procs, s.lock, InL1, p);
    assert p in s.l2 <==> Belongs(s.procs, s.lock, InL2, p);
    assert PcbOk(s.procs[p], |s.procs|);
    SchedOrder.BucketMembers(s.l2, s.procs, s.procs[p].priority, p);
  }

  lemma AsleepNowhere(s: State, p: nat, v: int)
    requires Core(s) && p < |s.procs| && s.procs[p].state == SLEEPING
    ensures p !in s.l0 && p !in s.l1 && p !in Line(s, v)
  {
    assert !Belongs(s.procs, s.lock, InL0, p);
    assert !Belongs(s.procs, s.lock, InL1, p);
    assert !Belongs(s.procs, s.lock, InL2, p);
    SchedOrder.BucketMembers(s.l2, s.procs, v, p);
  }

  // When an exit wakes the parent and init, the parent goes first.
  lemma ExitOrder(s: State, p: nat)
    requires Inv(s) && s.cur.Some? && s.cur.value != s.init
    requires p != s.init && HearsExit(s, s.cur.value, p) && HearsExit(s, s.cur.value, s.init)
    requires s.procs[p].level == s.procs[s.init].level
    requires s.procs[p].level == 2 ==> s.procs[p].priority == s.procs[s.init].priority
    ensures InFront(Exit(s), p, s.init)
  {
    hide Partition, Sorted, CpuOk, LockOk, Family, PidsOk, EmbryosOk, Wakeup, Exit, Line, Before;
    var w := Wakeup(s, ParentChan(s.procs[s.cur.value]));
    var t := Exit(s);
    var v := s.procs[p].priority;
    ExitStages(s, p);
    ExitKeeps(s);
    ExitTable(s);
    InItsQueue(w, p);
    InItsQueue(t, s.init);
    AsleepNowhere(w, s.init, v);
    if s.procs[p].level == 0 {
      NewBehind(w.l0, t.l0, p, s.init);
    } else if s.procs[p].level == 1 {
      NewBehind(w.l1, t.l1, p, s.init);
    } else {
      NewBehind(Line(w, v), Line(t, v), p, s.init);
    }
  }
}
