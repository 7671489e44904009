// First in, first served, over whole runs.
module SchedFront {
  import opened Wrappers
  import opened Slots
  import opened Sched
  import opened SchedInvariant
  import opened SchedSteps
  import opened SchedEffects
  import opened SchedOrder
  import opened SchedFifo
  import opened SchedRuns

  // Who is in front in a line of L2 is in front in L2.
  lemma {:induction false} BeforeBucket(q: seq<nat>, procs: seq<Pcb>, v: int, a: nat, b: nat)
    requires InRange(q, |procs|) && Before(Bucket(q, procs, v), a, b)
    ensures Before(q, a, b)
  {
    var line := Bucket(q, procs, v);
    BucketHead(q, procs, v);
    var rest := Bucket(q[1..], procs, v);
    if line[0] == a && procs[q[0]].priority == v {
      var i, j :| 0 <= i < j < |line| && line[i] == a && line[j] == b;
      assert line[1..] == rest && rest[j - 1] == b;
      BucketMembers(q[1..], procs, v, b);
      BeforeHead(q[1..], a, b);
      assert [a] + q[1..] == q;
    } else {
      if procs[q[0]].priority == v {
        BeforeTail(line, a, b);
        assert line[1..] == rest;
      } else {
        assert line == rest;
      }
      BeforeBucket(q[1..], procs, v, a, b);
      BeforeInside([q[0]], q[1..], [], a, b);
      assert [q[0]] + q[1..] + [] == q;
    }
  }

  // p is in front of q in level 0, in level 1, or in level 2 with an equal
  // priority value.
  ghost predicate InFront(s: State, p: nat, q: nat)
    requires Wf(s)
  {
    Before(s.l0, p, q) || Before(s.l1, p, q) || exists v: int :: Before(Line(s, v), p, q)
  }

  // The step does not move p by setPriority.
  predicate Unmoved(s: State, st: Step, p: nat) {
    p in s.l2 ==> Renamed(s, st) != Some(p)
  }

  lemma L0Front(s: State, st: Step, p: nat, q: nat)
    requires Inv(s) && Enabled(s, st) && Before(s.l0, p, q) && !(st.DoDispatch? && Next(s) == p)
    ensures Before(Apply(s, st).l0, p, q)
  {
    if st.DoDispatch? {
      BeforeTail(s.l0, p, q);
    } else {
      hide Partition, Sorted, CpuOk, LockOk, Family, PidsOk, EmbryosOk, Apply;
      FrontOfL0(s, st);
      var r := Apply(s, st).l0;
      if s.l0 <= r {
        BeforePrefix(s.l0, r, p, q);
      } else {
        BeforeInside([s.cur.value], s.l0, [], p, q);
        assert [s.cur.value] + s.l0 + [] == [s.cur.value] + s.l0;
        BeforePrefix([s.cur.value] + s.l0, r, p, q);
      }
    }
  }

  // The boost puts the levels behind each other.
  lemma BoostAppends(s: State)
    requires Inv(s) && s.cur.Some? && s.gticks == BOOST_TICKS - 1
    ensures Yield(s).l0 == GiveUp(s).l0 + (GiveUp(s).l1 + GiveUp(s).l2)
  {
  }

  lemma BoostFront(s: State, p: nat, q: nat)
    requires Inv(s) && s.cur.Some? && s.gticks == BOOST_TICKS - 1 && InFront(s, p, q) && !Before(s.l0, p, q)
    ensures Before(Yield(s).l0, p, q)
  {
    hide Partition, Sorted, CpuOk, LockOk, Family, PidsOk, EmbryosOk, Yield, GiveUp, Line, Before;
    GiveUpGrows(s);
    BoostAppends(s);
    var u := GiveUp(s);
    if Before(s.l1, p, q) {
      BeforePrefix(s.l1, u.l1, p, q);
      BeforeInside(u.l0, u.l1, u.l2, p, q);
      assert u.l0 + u.l1 + u.l2 == u.l0 + (u.l1 + u.l2);
    } else {
      var v: int :| Before(Line(s, v), p, q);
      BeforePrefix(Line(s, v), Line(u, v), p, q);
      LineFront(u, v, p, q);
      BeforeInside(u.l0 + u.l1, u.l2, [], p, q);
      assert u.l0 + u.l1 + u.l2 + [] == u.l0 + (u.l1 + u.l2);
    }
  }

  lemma LineFront(s: State, v: int, p: nat, q: nat)
    requires Wf(s) && Before(Line(s, v), p, q)
    ensures Before(s.l2, p, q)
  {
    BeforeBucket(s.l2, s.procs, v, p, q);
  }

  lemma L1Front(s: State, st: Step, p: nat, q: nat)
    requires Inv(s) && Enabled(s, st) && Before(s.l1, p, q) && !(st.DoDispatch? && Next(s) == p)
    requires !(st.DoYield? && s.gticks == BOOST_TICKS - 1)
    ensures Before(Apply(s, st).l1, p, q)
  {
    if st.DoDispatch? {
      if s.l0 == [] {
        BeforeTail(s.l1, p, q);
      }
    } else if !st.DoSetPriority? {
      hide Partition, Sorted, CpuOk, LockOk, Family, PidsOk, EmbryosOk, Line;
      StepGrows(s, st);
      BeforePrefix(s.l1, Apply(s, st).l1, p, q);
    }
  }

  lemma L2Front(s: State, st: Step, v: int, p: nat, q: nat)
    requires Inv(s) && Enabled(s, st) && Before(Line(s, v), p, q)
    requires !(st.DoDispatch? && Next(s) == p) && !(st.DoDispatch? && Next(s) == q)
    requires !(st.DoYield? && s.gticks == BOOST_TICKS - 1) && Unmoved(s, st, p) && Unmoved(s, st, q)
    ensures Before(Line(Apply(s, st), v), p, q)
  {
    hide Partition, Sorted, CpuOk, LockOk, Family, PidsOk, EmbryosOk,
      Apply, Line;
    var g := Leaver(s, st);
    LineMembers(s, v, p);
    LineMembers(s, v, q);
    StepFifo(s, st, v);
    if g.Some? {
      BeforeWithout(Line(s, v), g.value, p, q);
    }
    BeforePrefix(Rest(s, g, v), Line(Apply(s, st), v), p, q);
  }

  lemma NotServedFirst(s: State, p: nat, q: nat)
    requires Inv(s) && CanDispatch(s) && InFront(s, p, q) && Next(s) != p
    ensures Next(s) != q
  {
    hide Partition, Sorted, CpuOk, LockOk, Family, PidsOk, EmbryosOk,
      Line, Before;
    CoreQueues(s);
    if Before(s.l0, p, q) {
      BeforeSecond(s.l0, p, q);
    } else if Before(s.l1, p, q) {
      BeforeSecond(s.l1, p, q);
    } else {
      var v: int :| Before(Line(s, v), p, q);
      LineMembers(s, v, q);
      BeforeSecond(Line(s, v), p, q);
      if s.l0 == [] && s.l1 == [] && Next(s) == q {
        FirstServed(s);
      }
    }
  }

  lemma BeforeSecond(r: seq<nat>, p: nat, q: nat)
    requires Distinct(r) && Before(r, p, q)
    ensures r[0] != q && q in r
  {
  }

  // Nobody is in two queues.
  lemma CoreQueues(s: State)
    requires Inv(s)
    ensures Distinct(s.l0) && Distinct(s.l1) && Distinct(s.l2)
    ensures forall p :: p in s.l0 ==> p !in s.l1 && p !in s.l2
    ensures forall p :: p in s.l1 ==> p !in s.l2
  {
    forall p: nat ensures p in s.l0 ==> p !in s.l1 && p !in s.l2 ensures p in s.l1 ==> p !in s.l2 {
      if p < |s.procs| {
        assert Belongs(s.procs, s.lock, InL0, p) <==> p in s.l0;
        assert Belongs(s.procs, s.lock, InL1, p) <==> p in s.l1;
        assert Belongs(s.procs, s.lock, InL2, p) <==> p in s.l2;
      }
    }
  }

  // Nobody overtakes.
  lemma FrontStays(s: State, st: Step, p: nat, q: nat)
    requires Inv(s) && Enabled(s, st) && InFront(s, p, q) && !(st.DoDispatch? && Next(s) == p)
    requires Unmoved(s, st, p) && Unmoved(s, st, q)
    ensures InFront(Apply(s, st), p, q) && !(st.DoDispatch? && Next(s) == q)
  {
    if st.DoDispatch? {
      NotServedFirst(s, p, q);
    }
    hide Partition, Sorted, CpuOk, LockOk, Family, PidsOk, EmbryosOk,
      Line, Unmoved, Before, Yield;
    if Before(s.l0, p, q) {
      L0Front(s, st, p, q);
    } else if st.DoYield? && s.gticks == BOOST_TICKS - 1 {
      BoostFront(s, p, q);
    } else if Before(s.l1, p, q) {
      L1Front(s, st, p, q);
    } else {
      var v: int :| Before(Line(s, v), p, q);
      L2Front(s, st, v, p, q);
    }
  }

  // In no state of the run does setPriority move p.
  predicate NeverMoved(s: State, tr: seq<Step>, p: nat)
    requires Wf(s) && CanRun(s, tr)
    decreases |tr|
  {
    tr == [] || (Unmoved(s, tr[0], p) && NeverMoved(Apply(s, tr[0]), tr[1..], p))
  }

  // First in, first served. Of two processes in level 0, in level 1, or with
  // equal priority values in level 2, the one in front is dispatched first,
  // whatever yields, wakeups, locks and boosts come in between, unless
  // setPriority moves one of them.
  lemma {:induction false} FirstInFirstServed(s: State, tr: seq<Step>, p: nat, q: nat)
    requires Inv(s) && CanRun(s, tr) && InFront(s, p, q) && NeverMoved(s, tr, p) && NeverMoved(s, tr, q)
    ensures Served(s, tr, q) ==> Served(s, tr, p)
    decreases |tr|
  {
    hide Partition, Sorted, CpuOk, LockOk, Family, PidsOk, EmbryosOk,
      Apply, InFront, Unmoved;
    if tr != [] && !(tr[0].DoDispatch? && Next(s) == p) {
      StepKeeps(s, tr[0]);
      FrontStays(s, tr[0], p, q);
      FirstInFirstServed(Apply(s, tr[0]), tr[1..], p, q);
    }
  }
}
