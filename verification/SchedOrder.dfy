// The order of L2: by priority value, first in first out among equals.
module SchedOrder {
  import opened Slots
  import opened Sched
  import opened SchedInvariant

  // The members of q with priority value v, in order.
  function Bucket(q: seq<nat>, procs: seq<Pcb>, v: int): (r: seq<nat>)
    requires InRange(q, |procs|)
  {
    if q == [] then []
    else (if procs[q[0]].priority == v then [q[0]] else []) + Bucket(q[1..], procs, v)
  }

  lemma BucketHead(q: seq<nat>, procs: seq<Pcb>, v: int)
    requires InRange(q, |procs|) && q != []
    ensures Bucket(q, procs, v) == (if procs[q[0]].priority == v then [q[0]] else []) + Bucket(q[1..], procs, v)
  {
  }

  lemma {:induction false} BucketConcat(a: seq<nat>, b: seq<nat>, procs: seq<Pcb>, v: int)
    requires InRange(a, |procs|) && InRange(b, |procs|)
    ensures InRange(a + b, |procs|)
    ensures Bucket(a + b, procs, v) == Bucket(a, procs, v) + Bucket(b, procs, v)
  {
    if a == [] {
      assert a + b == b;
    } else {
      var c := a + b;
      assert c[0] == a[0] && c[1..] == a[1..] + b;
      BucketConcat(a[1..], b, procs, v);
      BucketHead(a, procs, v);
      BucketHead(c, procs, v);
      hide Bucket;
    }
  }

  lemma {:induction false} BucketEmpty(q: seq<nat>, procs: seq<Pcb>, v: int)
    requires InRange(q, |procs|) && forall x :: x in q ==> procs[x].priority != v
    ensures Bucket(q, procs, v) == []
  {
    if q != [] { BucketEmpty(q[1..], procs, v); }
  }

  // First in, first out among equals: the new member goes behind every member
  // of its own priority, and no other bucket changes.
  lemma FifoAmongEquals(q: seq<nat>, procs: seq<Pcb>, p: nat, v: int)
    requires InRange(q, |procs|) && p < |procs| && Sorted(q, procs)
    ensures InRange(ByPriority(q, procs, p), |procs|)
    ensures Bucket(ByPriority(q, procs, p), procs, v)
      == Bucket(q, procs, v) + if procs[p].priority == v then [p] else []
  {
    var k := FirstAbove(q, procs, procs[p].priority);
    var a, b := q[..k], q[k..];
    assert q == a + b && ByPriority(q, procs, p) == a + [p] + b;
    if procs[p].priority == v { NoneBehind(q, procs, k, v); }
    BucketSplice(a, b, procs, p, v);
  }

  // From the insertion point on, every priority value is larger.
  lemma NoneBehind(q: seq<nat>, procs: seq<Pcb>, k: nat, v: int)
    requires InRange(q, |procs|) && Sorted(q, procs) && k <= |q|
    requires k < |q| ==> procs[q[k]].priority > v
    ensures Bucket(q[k..], procs, v) == []
  {
    var b := q[k..];
    forall x | x in b ensures procs[x].priority != v {
      var i :| 0 <= i < |b| && b[i] == x;
      assert q[k + i] == x;
    }
    BucketEmpty(b, procs, v);
  }

  lemma BucketSplice(a: seq<nat>, b: seq<nat>, procs: seq<Pcb>, p: nat, v: int)
    requires InRange(a, |procs|) && InRange(b, |procs|) && p < |procs|
    ensures InRange(a + b, |procs|) && InRange(a + [p] + b, |procs|)
    ensures Bucket(a + b, procs, v) == Bucket(a, procs, v) + Bucket(b, procs, v)
    ensures Bucket(a + [p] + b, procs, v)
      == Bucket(a, procs, v) + (if procs[p].priority == v then [p] else []) + Bucket(b, procs, v)
  {
    BucketConcat(a, b, procs, v);
    BucketConcat(a, [p], procs, v);
    BucketConcat(a + [p], b, procs, v);
    assert Bucket([p], procs, v) == if procs[p].priority == v then [p] else [];
  }

  // Sortedness and the buckets leave only one sequence.
  lemma {:induction false} OrderDetermined(q: seq<nat>, r: seq<nat>, procs: seq<Pcb>)
    requires InRange(q, |procs|) && InRange(r, |procs|) && Sorted(q, procs) && Sorted(r, procs)
    requires forall v: int :: Bucket(q, procs, v) == Bucket(r, procs, v)
    ensures q == r
  {
    if q != [] { SameEmptiness(q, r, procs); }
    if r != [] { SameEmptiness(r, q, procs); }
    if q != [] && r != [] {
      var v := procs[q[0]].priority;
      HeadIsLeast(q, r, procs);
      HeadIsLeast(r, q, procs);
      assert Bucket(q, procs, v) == Bucket(r, procs, v);
      assert q[0] == Bucket(q, procs, v)[0] && r[0] == Bucket(r, procs, v)[0];
      forall u: int ensures Bucket(q[1..], procs, u) == Bucket(r[1..], procs, u) {
        assert Bucket(q, procs, u) == Bucket(r, procs, u);
        BucketTail(q, procs, u);
        BucketTail(r, procs, u);
      }
      OrderDetermined(q[1..], r[1..], procs);
    }
  }

  lemma BucketTail(q: seq<nat>, procs: seq<Pcb>, v: int)
    requires InRange(q, |procs|) && q != []
    ensures Bucket(q[1..], procs, v)
      == if procs[q[0]].priority == v then Bucket(q, procs, v)[1..] else Bucket(q, procs, v)
  {
  }

  lemma {:induction false} BucketMembers(q: seq<nat>, procs: seq<Pcb>, v: int, x: nat)
    requires InRange(q, |procs|)
    ensures x in Bucket(q, procs, v) <==> x in q && procs[x].priority == v
  {
    if q != [] { BucketMembers(q[1..], procs, v, x); }
  }

  lemma SameEmptiness(q: seq<nat>, r: seq<nat>, procs: seq<Pcb>)
    requires InRange(q, |procs|) && InRange(r, |procs|) && q != []
    requires forall v: int :: Bucket(q, procs, v) == Bucket(r, procs, v)
    ensures r != []
  {
    assert Bucket(r, procs, procs[q[0]].priority) == Bucket(q, procs, procs[q[0]].priority);
  }

  lemma HeadIsLeast(q: seq<nat>, r: seq<nat>, procs: seq<Pcb>)
    requires InRange(q, |procs|) && InRange(r, |procs|) && Sorted(q, procs) && q != [] && r != []
    requires forall v: int :: Bucket(q, procs, v) == Bucket(r, procs, v)
    ensures procs[q[0]].priority <= procs[r[0]].priority
  {
    var v := procs[r[0]].priority;
    BucketMembers(r, procs, v, r[0]);
    BucketMembers(q, procs, v, r[0]);
    assert Bucket(q, procs, v) == Bucket(r, procs, v);
    var i :| 0 <= i < |q| && q[i] == r[0];
  }

  // setPriority moves its target behind its new equals and leaves the order of
  // all others alone.
  lemma SetPriorityFifo(s: State, p: nat, prio: int, v: int)
    requires Inv(s) && p in s.l2 && p < |s.procs|
    ensures var t := Rearrange(WithPriority(s, p, prio), p);
      InRange(Without(s.l2, p), |s.procs|)
      && Bucket(t.l2, t.procs, v)
      == Bucket(Without(s.l2, p), s.procs, v) + if prio == v then [p] else []
  {
    var u := WithPriority(s, p, prio);
    var r := Without(s.l2, p);
    WithoutInRange(s.l2, p, |s.procs|);
    WithoutMembers(s.l2, p);
    WithoutSorted(s.l2, s.procs, p);
    forall i | 0 <= i < |r| ensures u.procs[r[i]] == s.procs[r[i]] { assert r[i] in r; }
    BucketSame(r, s.procs, u.procs, v);
    FifoAmongEquals(r, u.procs, p, v);
  }

  lemma {:induction false} BucketSame(q: seq<nat>, a: seq<Pcb>, b: seq<Pcb>, v: int)
    requires InRange(q, |a|) && InRange(q, |b|)
    requires forall i :: 0 <= i < |q| ==> a[q[i]].priority == b[q[i]].priority
    ensures Bucket(q, a, v) == Bucket(q, b, v)
  {
    if q != [] {
      forall i | 0 <= i < |q[1..]| ensures a[q[1..][i]].priority == b[q[1..][i]].priority {
        assert q[1..][i] == q[i + 1];
      }
      BucketSame(q[1..], a, b, v);
    }
  }

  // ------------------------------------------------------------ order of wakeups

  // The sleepers of todo on channel c that belong to this level, in order.
  function Picked(todo: seq<nat>, procs: seq<Pcb>, c: Chan, level: int): (r: seq<nat>)
    requires InRange(todo, |procs|)
  {
    if todo == [] then []
    else (if procs[todo[0]].chan == c && procs[todo[0]].level == level then [todo[0]] else [])
         + Picked(todo[1..], procs, c, level)
  }

  lemma {:induction false} PickedSame(todo: seq<nat>, a: seq<Pcb>, b: seq<Pcb>, c: Chan, level: int)
    requires InRange(todo, |a|) && |a| == |b|
    requires forall i :: 0 <= i < |a| ==> a[i].chan == b[i].chan && a[i].level == b[i].level
    ensures Picked(todo, a, c, level) == Picked(todo, b, c, level)
  {
    if todo != [] { PickedSame(todo[1..], a, b, c, level); }
  }

  lemma WakeLevels(s: State, p: nat)
    requires Wf(s) && p < |s.procs|
    ensures var t := Wake(s, p); var b := s.procs[p];
      && t.l0 == s.l0 + (if b.level == 0 then [p] else [])
      && t.l1 == s.l1 + (if b.level == 1 then [p] else [])
      && forall i :: 0 <= i < |s.procs| ==> t.procs[i].chan == s.procs[i].chan && t.procs[i].level == s.procs[i].level
  {
  }

  // One wakeup serves the sleepers of a level in the order in which they went
  // to sleep.
  lemma {:induction false} WakeupFifo(s: State, todo: seq<nat>, c: Chan)
    requires Wf(s) && InRange(todo, |s.procs|)
    ensures WakeEach(s, todo, c).l0 == s.l0 + Picked(todo, s.procs, c, 0)
    ensures WakeEach(s, todo, c).l1 == s.l1 + Picked(todo, s.procs, c, 1)
    decreases |todo|
  {
    hide Wake, Wf, Picked;
    if todo == [] {
      NonePicked(s, todo, c);
    } else {
      var p := todo[0];
      var t := if s.procs[p].chan == c then Wake(s, p) else s;
      WakeLevels(s, p);
      WakeupFifo(t, todo[1..], c);
      PickedSame(todo[1..], s.procs, t.procs, c, 0);
      PickedSame(todo[1..], s.procs, t.procs, c, 1);
      FrontPicked(s.l0, todo, s.procs, c, 0);
      FrontPicked(s.l1, todo, s.procs, c, 1);
    }
  }

  lemma NonePicked(s: State, todo: seq<nat>, c: Chan)
    requires InRange(todo, |s.procs|) && todo == []
    ensures s.l0 + Picked(todo, s.procs, c, 0) == s.l0 && s.l1 + Picked(todo, s.procs, c, 1) == s.l1
  {
  }

  lemma FrontPicked(q: seq<nat>, todo: seq<nat>, procs: seq<Pcb>, c: Chan, level: int)
    requires InRange(todo, |procs|) && todo != []
    ensures q + Picked(todo, procs, c, level)
      == (q + if procs[todo[0]].chan == c && procs[todo[0]].level == level then [todo[0]] else [])
         + Picked(todo[1..], procs, c, level)
  {
  }
}
