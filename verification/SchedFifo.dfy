// First in, first out in L2, step by step.
module SchedFifo {
  import opened Wrappers
  import opened Slots
  import opened Sched
  import opened SchedInvariant
  import opened SchedSteps
  import opened SchedEffects
  import opened SchedOrder

  // The processes of L2 with priority value v, in the order they will run.
  function Line(s: State, v: int): (q: seq<nat>)
    requires Wf(s)
  {
    Bucket(s.l2, s.procs, v)
  }

  // -------------------------------------------------------------- wakeup

  // The sleepers of todo on channel c that join L2 with priority value v.
  function Joining(todo: seq<nat>, procs: seq<Pcb>, c: Chan, v: int): (q: seq<nat>)
    requires InRange(todo, |procs|)
  {
    if todo == [] then []
    else
      var b := procs[todo[0]];
      (if b.chan == c && b.level == 2 && b.priority == v then [todo[0]] else []) + Joining(todo[1..], procs, c, v)
  }

  // Channel, level and priority stay.
  ghost predicate SamePlaces(a: seq<Pcb>, b: seq<Pcb>) {
    |a| == |b| && forall i :: 0 <= i < |a| ==>
      a[i].chan == b[i].chan && a[i].level == b[i].level && a[i].priority == b[i].priority
  }

  lemma {:induction false} JoiningSame(todo: seq<nat>, a: seq<Pcb>, b: seq<Pcb>, c: Chan, v: int)
    requires InRange(todo, |a|) && SamePlaces(a, b)
    ensures Joining(todo, a, c, v) == Joining(todo, b, c, v)
  {
    if todo != [] { JoiningSame(todo[1..], a, b, c, v); }
  }

  lemma SortedSame(q: seq<nat>, a: seq<Pcb>, b: seq<Pcb>)
    requires InRange(q, |a|) && SamePlaces(a, b) && Sorted(q, a)
    ensures Sorted(q, b)
  {
  }

  lemma BucketPlaces(q: seq<nat>, a: seq<Pcb>, b: seq<Pcb>, v: int)
    requires InRange(q, |a|) && SamePlaces(a, b)
    ensures Bucket(q, a, v) == Bucket(q, b, v)
  {
    BucketSame(q, a, b, v);
  }

  lemma WakeJoins(s: State, p: nat, v: int)
    requires Wf(s) && Sorted(s.l2, s.procs) && p < |s.procs|
    ensures var t := Wake(s, p); var b := s.procs[p];
      && Sorted(t.l2, t.procs) && SamePlaces(s.procs, t.procs)
      && Line(t, v) == Line(s, v) + if b.level == 2 && b.priority == v then [p] else []
  {
    var t := Wake(s, p);
    SortedSame(s.l2, s.procs, t.procs);
    BucketPlaces(s.l2, s.procs, t.procs, v);
    ByPrioritySorted(s.l2, t.procs, p);
    FifoAmongEquals(s.l2, t.procs, p, v);
  }

  // One wakeup appends to each priority value of L2 its sleepers in the order
  // in which they went to sleep.
  lemma {:induction false} WakeupFifoL2(s: State, todo: seq<nat>, c: Chan, v: int)
    requires Wf(s) && Sorted(s.l2, s.procs) && InRange(todo, |s.procs|)
    ensures var t := WakeEach(s, todo, c);
      && Sorted(t.l2, t.procs) && SamePlaces(s.procs, t.procs)
      && Line(t, v) == Line(s, v) + Joining(todo, s.procs, c, v)
    decreases |todo|
  {
    hide Wake, Wf, Line, Sorted, SamePlaces, Joining;
    PlacesSame(s.procs);
    if todo == [] {
      NoneJoin(s, todo, c, v);
    } else {
      var p := todo[0];
      var t := if s.procs[p].chan == c then Wake(s, p) else s;
      WakeJoins(s, p, v);
      JoiningSame(todo[1..], s.procs, t.procs, c, v);
      WakeupFifoL2(t, todo[1..], c, v);
      PlacesTrans(s.procs, t.procs, WakeEach(s, todo, c).procs);
      LineJoins(s, todo, c, v);
    }
  }

  lemma NoneJoin(s: State, todo: seq<nat>, c: Chan, v: int)
    requires Wf(s) && InRange(todo, |s.procs|) && todo == []
    ensures Line(s, v) + Joining(todo, s.procs, c, v) == Line(s, v)
  {
  }

  lemma PlacesSame(a: seq<Pcb>)
    ensures SamePlaces(a, a)
  {
  }

  lemma PlacesTrans(a: seq<Pcb>, b: seq<Pcb>, c: seq<Pcb>)
    requires SamePlaces(a, b) && SamePlaces(b, c)
    ensures SamePlaces(a, c)
  {
  }

  lemma LineJoins(s: State, todo: seq<nat>, c: Chan, v: int)
    requires Wf(s) && InRange(todo, |s.procs|) && todo != []
    ensures var b := s.procs[todo[0]];
      Line(s, v) + Joining(todo, s.procs, c, v)
      == (Line(s, v) + (if b.chan == c && b.level == 2 && b.priority == v then [todo[0]] else []))
         + Joining(todo[1..], s.procs, c, v)
  {
  }

  // ------------------------------------------------------- steps that only add

  // L1 and every line of L2 are extended at their ends.
  ghost predicate Grows(s: State, t: State)
    requires Wf(s) && Wf(t)
  {
    && Sorted(t.l2, t.procs) && |t.procs| == |s.procs| && s.l1 <= t.l1
    && forall v: int :: Line(s, v) <= Line(t, v)
  }

  lemma GrowsTrans(s: State, t: State, u: State)
    requires Wf(s) && Wf(t) && Wf(u) && Grows(s, t) && Grows(t, u)
    ensures Grows(s, u)
  {
    hide Line, Wf, Sorted;
    forall v: int ensures Line(s, v) <= Line(u, v) {
      assert Line(s, v) <= Line(t, v) && Line(t, v) <= Line(u, v);
    }
  }

  // L1 and L2 are left alone, and so are the priorities of the members of L2.
  lemma SameL2Grows(s: State, t: State)
    requires Wf(s) && Wf(t) && Sorted(s.l2, s.procs) && t.l1 == s.l1 && t.l2 == s.l2 && |t.procs| == |s.procs|
    requires forall i :: 0 <= i < |s.l2| ==> t.procs[s.l2[i]].priority == s.procs[s.l2[i]].priority
    ensures Grows(s, t)
  {
    forall v: int ensures Line(s, v) <= Line(t, v) {
      BucketSame(s.l2, s.procs, t.procs, v);
    }
  }

  // The change of one entry outside L2.
  lemma OneEntryGrows(s: State, t: State, p: nat)
    requires Wf(s) && Wf(t) && Sorted(s.l2, s.procs) && t.l1 == s.l1 && t.l2 == s.l2 && p < |s.procs|
    requires |t.procs| == |s.procs| && t.procs == s.procs[p := t.procs[p]]
    requires p !in s.l2 || t.procs[p].priority == s.procs[p].priority
    ensures Grows(s, t)
  {
    forall i | 0 <= i < |s.l2| ensures t.procs[s.l2[i]].priority == s.procs[s.l2[i]].priority {
      assert s.l2[i] in s.l2;
    }
    SameL2Grows(s, t);
  }

  lemma EnqueueGrows(s: State, p: nat)
    requires Wf(s) && Sorted(s.l2, s.procs) && p < |s.procs|
    ensures Grows(s, Enqueue(s, p))
  {
    var t := Enqueue(s, p);
    ByPrioritySorted(s.l2, s.procs, p);
    forall v: int ensures Line(s, v) <= Line(t, v) {
      FifoAmongEquals(s.l2, s.procs, p, v);
    }
  }

  lemma WakeGrows(s: State, p: nat)
    requires Wf(s) && Sorted(s.l2, s.procs) && p < |s.procs|
    ensures Grows(s, Wake(s, p))
  {
    forall v: int ensures Line(s, v) <= Line(Wake(s, p), v) {
      WakeJoins(s, p, v);
    }
    WakeJoins(s, p, 0);
  }

  lemma WakeupGrows(s: State, c: Chan)
    requires Wf(s) && Sorted(s.l2, s.procs)
    ensures Grows(s, Wakeup(s, c))
  {
    forall v: int ensures Line(s, v) <= Line(Wakeup(s, c), v) {
      WakeupFifoL2(s, s.sleep, c, v);
    }
    WakeupFifoL2(s, s.sleep, c, 0);
    WakeupFifo(s, s.sleep, c);
  }

  lemma ReparentOneGrows(s: State, me: nat, i: nat)
    requires Wf(s) && Sorted(s.l2, s.procs) && i < |s.procs|
    ensures Grows(s, ReparentOne(s, me, i))
  {
    hide Wf, Line, Wakeup;
    if s.procs[i].parent == Some(me) {
      var t := s.(procs := s.procs[i := s.procs[i].(parent := Some(s.init))]);
      WfParent(s, i);
      OneEntryGrows(s, t, i);
      if s.procs[i].state == ZOMBIE {
        WakeupGrows(t, EntryOf(s.init));
        GrowsTrans(s, t, Wakeup(t, EntryOf(s.init)));
      }
    } else {
      SameL2Grows(s, s);
    }
  }

  lemma WfParent(s: State, i: nat)
    requires Wf(s) && i < |s.procs|
    ensures Wf(s.(procs := s.procs[i := s.procs[i].(parent := Some(s.init))]))
  {
  }

  lemma {:induction false} ReparentGrows(s: State, me: nat, i: nat)
    requires Wf(s) && Sorted(s.l2, s.procs) && i <= |s.procs|
    ensures Grows(s, Reparent(s, me, i))
    decreases |s.procs| - i
  {
    hide Wf, Line, ReparentOne;
    if i < |s.procs| {
      var t := ReparentOne(s, me, i);
      ReparentOneGrows(s, me, i);
      ReparentGrows(t, me, i + 1);
      GrowsTrans(s, t, Reparent(s, me, i));
    } else {
      SameL2Grows(s, s);
    }
  }

  lemma ExitGrows(s: State)
    requires Inv(s) && s.cur.Some? && s.cur.value != s.init
    ensures Grows(s, Exit(s)) && Grows(Wakeup(s, ParentChan(s.procs[s.cur.value])), Exit(s))
  {
    hide Holds, Sorted, LockOk, PidsOk, EmbryosOk;
    var p := s.cur.value;
    var c := ParentChan(s.procs[p]);
    var w := Wakeup(s, c);
    var t := Reparent(w, p, 0);
    RunningFacts(s);
    WakeupKeeps(s, c);
    ReparentKeeps(w, p, 0);
    assert t.gticks < BOOST_TICKS;
    assert Exit(s) == t.(lock := None, cur := None, procs := t.procs[p := t.procs[p].(state := ZOMBIE)]);
    hide Wakeup, Reparent, Exit, Core, Line, Wf;
    WakeupGrows(s, c);
    ReparentGrows(w, p, 0);
    OneEntryGrows(t, Exit(s), p);
    GrowsTrans(w, t, Exit(s));
    GrowsTrans(s, w, Exit(s));
  }

  lemma KillGrows(s: State, pid: int)
    requires Inv(s)
    ensures Grows(s, Kill(s, pid))
  {
    var k := FirstPid(s.procs, pid, 0);
    if k == |s.procs| {
      SameL2Grows(s, s);
    } else {
      var t := s.(procs := s.procs[k := s.procs[k].(killed := true)]);
      OneEntryGrows(s, t, k);
      if s.procs[k].state == SLEEPING {
        WakeGrows(t, k);
        GrowsTrans(s, t, Wake(t, k));
      }
    }
  }

  lemma ChargedGrows(s: State)
    requires Inv(s) && s.cur.Some? && !Favoured(s, s.cur.value)
    ensures Grows(s, GiveUp(s))
  {
    hide Grows, Partition, CpuOk, LockOk, Family, PidsOk, EmbryosOk, Enqueue, Charge;
    var p := s.cur.value;
    RunningFacts(s);
    var u := Charged(s.(gticks := s.gticks + 1), p);
    OneEntryGrows(s, u, p);
    SortedAfter(s, u);
    EnqueueGrows(u, p);
    GrowsTrans(s, u, Enqueue(u, p));
  }

  lemma SortedAfter(s: State, t: State)
    requires Wf(s) && Wf(t) && Grows(s, t)
    ensures Sorted(t.l2, t.procs)
  {
  }

  lemma GiveUpGrows(s: State)
    requires Inv(s) && s.cur.Some?
    ensures Grows(s, GiveUp(s))
  {
    hide Grows, Partition, CpuOk, LockOk, Family, PidsOk, EmbryosOk, Enqueue, Charge;
    var p := s.cur.value;
    RunningFacts(s);
    if Favoured(s, p) {
      OneEntryGrows(s, GiveUp(s), p);
    } else {
      ChargedGrows(s);
    }
  }

  lemma YieldGrows(s: State)
    requires Inv(s) && s.cur.Some? && s.gticks < BOOST_TICKS - 1
    ensures Grows(s, Yield(s))
  {
    GiveUpGrows(s);
    assert Yield(s) == GiveUp(s).(cur := None);
  }

  // Steps other than a dispatch, setPriority and the boost take nobody out of L1
  // or L2.
  lemma StepGrows(s: State, st: Step)
    requires Inv(s) && Enabled(s, st) && !st.DoDispatch? && !st.DoSetPriority?
    requires !(st.DoYield? && s.gticks == BOOST_TICKS - 1)
    ensures Grows(s, Apply(s, st))
  {
    hide Grows, Partition, CpuOk, LockOk, Family, PidsOk, EmbryosOk, Kill, Exit, Wakeup, Yield;
    match st
    case DoYield => YieldGrows(s);
    case DoSleep(a) => SleepGrows(s, Address(a));
    case DoWait => WaitGrows(s);
    case DoExit => ExitGrows(s);
    case DoAlloc => AllocGrows(s);
    case DoForkFail(e) => EmbryoFacts(s, e); OneEntryGrows(s, Apply(s, st), e);
    case DoForkFinish(e) => EmbryoFacts(s, e); OneEntryGrows(s, Apply(s, st), e);
    case DoWakeup(c) => WakeupGrows(s, c);
    case DoKill(pid) => KillGrows(s, pid);
    case DoLock => SameL2Grows(s, Apply(s, st));
    case DoUnlock => UnlockGrows(s);
    case DoFault => OneEntryGrows(s, Apply(s, st), s.cur.value);
  }

  lemma SleepGrows(s: State, c: Chan)
    requires Inv(s) && s.cur.Some?
    ensures Grows(s, SleepOn(s, c))
  {
    OneEntryGrows(s, SleepOn(s, c), s.cur.value);
  }

  lemma WaitGrows(s: State)
    requires Inv(s) && s.cur.Some?
    ensures Grows(s, Wait(s))
  {
    var me := s.cur.value;
    var z := FirstDead(s, me, 0);
    if z < |s.procs| {
      assert !Belongs(s.procs, s.lock, InL2, z);
      OneEntryGrows(s, Wait(s), z);
    } else if Wait(s) == s {
      SameL2Grows(s, s);
    } else {
      SleepGrows(s, EntryOf(me));
    }
  }

  lemma AllocGrows(s: State)
    requires Inv(s)
    ensures Grows(s, Alloc(s))
  {
    if s.unused == [] {
      SameL2Grows(s, s);
    } else {
      var p := s.unused[0];
      assert Belongs(s.procs, s.lock, InUnused, p);
      OneEntryGrows(s, Alloc(s), p);
    }
  }

  lemma UnlockGrows(s: State)
    requires Inv(s) && s.cur.Some?
    ensures Grows(s, Unlock(s))
  {
    RunningFacts(s);
    OneEntryGrows(s, Unlock(s), s.cur.value);
  }

  // ------------------------------------------------ steps that take one out

  lemma {:induction false} BucketWithout(q: seq<nat>, procs: seq<Pcb>, p: nat, v: int)
    requires InRange(q, |procs|) && Distinct(q)
    ensures InRange(Without(q, p), |procs|) && Bucket(Without(q, p), procs, v) == Without(Bucket(q, procs, v), p)
  {
    WithoutInRange(q, p, |procs|);
    if q != [] {
      BucketMembers(q[1..], procs, v, p);
      if q[0] == p {
        assert p !in q[1..];
        WithoutAbsent(Bucket(q[1..], procs, v), p);
        BucketTail(q, procs, v);
      } else {
        BucketWithout(q[1..], procs, p, v);
        var r := Without(q, p);
        assert r[0] == q[0] && r[1..] == Without(q[1..], p);
        BucketHead(q, procs, v);
        BucketHead(r, procs, v);
        WithoutLater(q[0], Bucket(q[1..], procs, v), p);
        assert procs[q[0]].priority != v ==> Bucket(q, procs, v) == Bucket(q[1..], procs, v);
      }
    }
  }

  lemma WithoutLater(x: nat, q: seq<nat>, p: nat)
    requires x != p
    ensures Without([x] + q, p) == [x] + Without(q, p)
  {
    assert ([x] + q)[1..] == q;
  }

  // Who may leave its place in L2: the process dispatched, or the target of
  // setPriority. A process that was not in L2 leaves no line.
  function Leaver(s: State, st: Step): (g: Option<nat>)
    requires Wf(s) && Enabled(s, st)
  {
    if st.DoDispatch? then Some(Next(s)) else Renamed(s, st)
  }

  function Rest(s: State, g: Option<nat>, v: int): (q: seq<nat>)
    requires Wf(s)
  {
    if g.Some? then Without(Line(s, v), g.value) else Line(s, v)
  }

  lemma NotInLine(s: State, p: nat, v: int)
    requires Wf(s) && p !in s.l2
    ensures Without(Line(s, v), p) == Line(s, v)
  {
    BucketMembers(s.l2, s.procs, v, p);
    WithoutAbsent(Line(s, v), p);
  }

  lemma DispatchLine(s: State, v: int)
    requires Inv(s) && CanDispatch(s)
    ensures Line(Dispatch(s), v) == Without(Line(s, v), Next(s))
  {
    var p := Next(s);
    var t := Dispatch(s);
    NextRunnable(s);
    BucketSame(t.l2, s.procs, t.procs, v);
    if s.l0 == [] && s.l1 == [] {
      BucketWithout(s.l2, s.procs, p, v);
      assert Without(s.l2, p) == s.l2[1..];
    } else {
      assert p in s.l0 || p in s.l1;
      assert !Belongs(s.procs, s.lock, InL2, p);
      NotInLine(s, p, v);
    }
  }

  // When L2 is served, the process served is the first of those with the
  // smallest priority value.
  lemma FirstServed(s: State)
    requires Inv(s) && CanDispatch(s) && s.l0 == [] && s.l1 == []
    ensures Next(s) < |s.procs| && forall x: nat :: x in s.l2 ==> s.procs[Next(s)].priority <= s.procs[x].priority
    ensures var v := s.procs[Next(s)].priority; Line(s, v) == [Next(s)] + Line(Dispatch(s), v)
  {
    var v := s.procs[Next(s)].priority;
    DispatchLine(s, v);
    assert Line(s, v)[0] == s.l2[0];
  }

  // setPriority moves its target, if that is in L2, behind its new equals, and
  // leaves the order of all others alone.
  lemma SetPriorityLine(s: State, pid: int, prio: int, v: int)
    requires Inv(s) && s.cur.Some?
    ensures var p := LastPid(s.procs, pid, |s.procs|);
      Line(SetPriority(s, pid, prio), v)
      == if p.Some? && p.value in s.l2 then Without(Line(s, v), p.value) + (if prio == v then [p.value] else [])
         else Line(s, v)
  {
    var k := LastPid(s.procs, pid, |s.procs|);
    if k.Some? {
      var p := k.value;
      InL2Exactly(s, p);
      hide Core;
      if p in s.l2 {
        SetPriorityFifo(s, p, prio, v);
        BucketWithout(s.l2, s.procs, p, v);
      } else {
        OutsideLine(s, p, prio, v);
      }
    }
  }

  lemma OutsideLine(s: State, p: nat, prio: int, v: int)
    requires Wf(s) && p < |s.procs| && p !in s.l2
    ensures Line(WithPriority(s, p, prio), v) == Line(s, v)
  {
    BucketSame(s.l2, s.procs, WithPriority(s, p, prio).procs, v);
  }

  // ------------------------------------------------------------ all together

  // Only what left may come back: all others behind the rest are new in L2.
  lemma JoinersNew(s: State, t: State, g: Option<nat>, v: int, x: nat)
    requires Inv(s) && Inv(t) && |t.procs| == |s.procs| && Rest(s, g, v) <= Line(t, v)
    requires x in Line(t, v)[|Rest(s, g, v)|..] && g != Some(x)
    requires x in s.l2 ==> x < |s.procs| && t.procs[x].priority == s.procs[x].priority
    ensures x !in s.l2
  {
    hide Core, Line, Wf;
    LineMembers(s, v, x);
    LineMembers(t, v, x);
    SplitDistinct(Line(t, v), |Rest(s, g, v)|, x);
    if g.Some? { WithoutMembers(Line(s, v), g.value); }
  }

  lemma LineMembers(s: State, v: int, x: nat)
    requires Inv(s)
    ensures Wf(s) && Distinct(Line(s, v))
    ensures x in Line(s, v) <==> x in s.l2 && x < |s.procs| && s.procs[x].priority == v
  {
    BucketMembers(s.l2, s.procs, v, x);
    BucketDistinct(s.l2, s.procs, v);
    hide Bucket;
    if x in s.l2 { assert Belongs(s.procs, s.lock, InL2, x); }
  }

  lemma SplitDistinct(q: seq<nat>, n: nat, x: nat)
    requires Distinct(q) && n <= |q| && x in q[n..]
    ensures x in q && x !in q[..n]
  {
    var i :| 0 <= i < |q[n..]| && q[n..][i] == x;
    assert q[n + i] == x;
  }

  lemma {:induction false} BucketDistinct(q: seq<nat>, procs: seq<Pcb>, v: int)
    requires InRange(q, |procs|) && Distinct(q)
    ensures Distinct(Bucket(q, procs, v))
  {
    if q != [] {
      BucketDistinct(q[1..], procs, v);
      BucketMembers(q[1..], procs, v, q[0]);
      assert q[0] !in q[1..];
    }
  }

  // Priorities of members of L2 change by setPriority only, short of a boost.
  lemma SamePriority(s: State, st: Step, x: nat)
    requires Inv(s) && Enabled(s, st) && x in s.l2 && !(st.DoYield? && s.gticks == BOOST_TICKS - 1)
    ensures x < |s.procs| && (Renamed(s, st) != Some(x) ==> Apply(s, st).procs[x].priority == s.procs[x].priority)
  {
    assert Belongs(s.procs, s.lock, InL2, x);
    if IsCalm(st) {
      CalmStep(s, st);
    } else if st.DoYield? {
      RunningFacts(s);
      YieldTable(s, x);
    } else if st.DoUnlock? {
      RunningFacts(s);
    }
  }

  // First in, first out in L2. Every step but the boost, which empties L2, takes
  // at most the process dispatched or moved out of a line, keeps the order of
  // the others, and puts newcomers at the end.
  lemma StepFifo(s: State, st: Step, v: int)
    requires Inv(s) && Enabled(s, st) && !(st.DoYield? && s.gticks == BOOST_TICKS - 1)
    ensures Rest(s, Leaver(s, st), v) <= Line(Apply(s, st), v)
    ensures forall x :: x in Line(Apply(s, st), v)[|Rest(s, Leaver(s, st), v)|..] ==>
      x !in s.l2 || Leaver(s, st) == Some(x)
  {
    var t := Apply(s, st);
    var g := Leaver(s, st);
    StepKeeps(s, st);
    RestStays(s, st, v);
    forall x | x in Line(t, v)[|Rest(s, g, v)|..] ensures x !in s.l2 || g == Some(x) {
      if x in s.l2 && g != Some(x) {
        SamePriority(s, st, x);
        JoinersNew(s, t, g, v, x);
      }
    }
  }

  lemma RestStays(s: State, st: Step, v: int)
    requires Inv(s) && Enabled(s, st) && !(st.DoYield? && s.gticks == BOOST_TICKS - 1)
    ensures Rest(s, Leaver(s, st), v) <= Line(Apply(s, st), v)
  {
    if st.DoDispatch? {
      DispatchLine(s, v);
    } else if st.DoSetPriority? {
      SetPriorityLine(s, st.pid, st.v, v);
      var g := Renamed(s, st);
      if g.Some? && g.value !in s.l2 { NotInLine(s, g.value, v); }
    } else {
      StepGrows(s, st);
    }
  }

  // First in, first out for one wakeup, on every level: the sleepers join their
  // queue, in L2 behind their equals, in the order in which they went to sleep.
  lemma WakeupLine(s: State, c: Chan, v: int)
    requires Inv(s)
    ensures var t := Apply(s, DoWakeup(c));
      && t.l0 == s.l0 + Picked(s.sleep, s.procs, c, 0)
      && t.l1 == s.l1 + Picked(s.sleep, s.procs, c, 1)
      && Line(t, v) == Line(s, v) + Joining(s.sleep, s.procs, c, v)
  {
    WakeupFifo(s, s.sleep, c);
    WakeupFifoL2(s, s.sleep, c, v);
  }
}
