// The scheduler of proc.c on its own data: a table of linked process entries
// and five queues. Every critical section is proved to do on this data what the
// state machine in Sched.dfy does on values.
module KernelModel {
  import opened Wrappers
  import opened Slots
  import opened Sched
  import opened SchedInvariant
  import opened SchedSteps
  import opened SchedRuns
  import SchedEffects
  import SchedTable
  import opened ProcQueue

  ghost function Table(t: seq<Entry>): (r: seq<Pcb>) {
    seq(|t|, i requires 0 <= i < |t| => t[i].b)
  }

  // No slot is in two queues.
  ghost predicate Apart(s: State) {
    && (forall x: nat :: x in s.l0 ==> x !in s.l1 && x !in s.l2 && x !in s.sleep && x !in s.unused)
    && (forall x: nat :: x in s.l1 ==> x !in s.l2 && x !in s.sleep && x !in s.unused)
    && (forall x: nat :: x in s.l2 ==> x !in s.sleep && x !in s.unused)
    && (forall x: nat :: x in s.sleep ==> x !in s.unused)
  }

  predicate Free(s: State, p: nat) {
    p < |s.procs| && p !in s.l0 && p !in s.l1 && p !in s.l2 && p !in s.sleep && p !in s.unused
  }

  // The state with queue number id replaced.
  function Put(s: State, id: int, q: seq<nat>): (r: State) {
    if id == 0 then s.(l0 := q)
    else if id == 1 then s.(l1 := q)
    else if id == 2 then s.(l2 := q)
    else if id == 3 then s.(sleep := q)
    else s.(unused := q)
  }

  function Get(s: State, id: int): (r: seq<nat>) {
    if id == 0 then s.l0 else if id == 1 then s.l1 else if id == 2 then s.l2
    else if id == 3 then s.sleep else s.unused
  }

  lemma PutWf(s: State, id: int, r: seq<nat>)
    requires Wf(s) && 0 <= id < 5 && InRange(r, |s.procs|)
    ensures Wf(Put(s, id, r))
  {
    hide PcbOk;
  }

  // Slot p leaves queue number id.
  lemma PutLess(s: State, id: int, r: seq<nat>, p: nat)
    requires Apart(s) && 0 <= id < 5 && p in Get(s, id) && p < |s.procs|
    requires forall x :: x in r ==> x in Get(s, id) && x != p
    ensures Apart(Put(s, id, r)) && Free(Put(s, id, r), p)
  {
  }

  // A free slot p joins queue number id.
  lemma PutMore(s: State, id: int, r: seq<nat>, p: nat)
    requires Apart(s) && 0 <= id < 5 && Free(s, p)
    requires forall x :: x in r ==> x in Get(s, id) || x == p
    ensures Apart(Put(s, id, r))
  {
  }

  lemma InQueue(s: State, id: int, p: nat)
    requires Wf(s) && 0 <= id < 5 && p in Get(s, id)
    ensures p < |s.procs| && InRange(Get(s, id), |s.procs|)
  {
    var k :| 0 <= k < |Get(s, id)| && Get(s, id)[k] == p;
    assert InRange(Get(s, id), |s.procs|);
  }

  // What changes in queue number id and in free slots is in no other queue.
  ghost predicate Elsewhere(s: State, id: int, touched: set<nat>) {
    && (id != 0 ==> forall x :: x in s.l0 ==> x !in touched)
    && (id != 1 ==> forall x :: x in s.l1 ==> x !in touched)
    && (id != 2 ==> forall x :: x in s.l2 ==> x !in touched)
    && (id != 3 ==> forall x :: x in s.sleep ==> x !in touched)
    && (id != 4 ==> forall x :: x in s.unused ==> x !in touched)
  }

  lemma TouchesNoOther(s: State, id: int, touched: set<nat>)
    requires Apart(s) && 0 <= id < 5 && forall x :: x in touched ==> x in Get(s, id) || Free(s, x)
    ensures Elsewhere(s, id, touched)
  {
  }

  lemma SamePosition(q: seq<nat>, i: nat, j: nat)
    requires Distinct(q) && i < |q| && j < |q| && q[i] == q[j]
    ensures i == j
  {
  }

  lemma SameTable(t: seq<Entry>, u: seq<Entry>, touched: set<nat>)
    requires Relinked(t, u, touched)
    ensures Table(t) == Table(u)
  {
  }

  // The table with the entries named in q reset.
  function ResetIn(procs: seq<Pcb>, q: seq<nat>): (r: seq<Pcb>) {
    seq(|procs|, i requires 0 <= i < |procs| => if i in q then Reset(procs[i]) else procs[i])
  }

  // The two branches of yield().
  lemma GiveUpAtHead(s: State)
    requires Wf(s) && s.cur.Some? && Favoured(s, s.cur.value)
    ensures GiveUp(s) == AtHead(s.(gticks := s.gticks + 1), s.cur.value)
  {
  }

  lemma GiveUpCharged(s: State)
    requires Wf(s) && s.cur.Some? && !Favoured(s, s.cur.value)
    ensures GiveUp(s) == Enqueue(Charged(s.(gticks := s.gticks + 1), s.cur.value), s.cur.value)
  {
  }

  // The three ends of one turn of the loop in wait().
  lemma WaitReaps(s: State)
    requires Wf(s) && s.cur.Some? && FirstDead(s, s.cur.value, 0) < |s.procs|
    ensures var z := FirstDead(s, s.cur.value, 0);
      Wait(s) == s.(procs := s.procs[z := Reaped(s.procs[z])], unused := s.unused + [z])
  {
  }

  lemma WaitReturns(s: State)
    requires Wf(s) && s.cur.Some? && FirstDead(s, s.cur.value, 0) == |s.procs|
    requires s.procs[s.cur.value].killed || forall i :: 0 <= i < |s.procs| ==> !IsChild(s, s.cur.value, i)
    ensures Wait(s) == s
  {
  }

  lemma WaitSleeps(s: State)
    requires Wf(s) && s.cur.Some? && FirstDead(s, s.cur.value, 0) == |s.procs|
    requires !s.procs[s.cur.value].killed && exists i :: 0 <= i < |s.procs| && IsChild(s, s.cur.value, i)
    ensures Wait(s) == SleepOn(s, EntryOf(s.cur.value)) && Wait(s).cur == None
  {
  }

  // setPriority looks up its insertion point while the moved process is linked
  // at its old place with its new priority. The lookup never finds the process
  // itself, and what it finds is the right place once the process is out.
  lemma {:induction false} BaseStillRight(q: seq<nat>, procs: seq<Pcb>, p: nat)
    requires InRange(q, |procs|) && Distinct(q) && p in q
    ensures var v := procs[p].priority; var k := FirstAbove(q, procs, v); var r := Without(q, p);
      && InRange(r, |procs|)
      && (k < |q| ==> q[k] != p && FirstAbove(r, procs, v) < |r| && r[FirstAbove(r, procs, v)] == q[k])
      && (k == |q| ==> FirstAbove(r, procs, v) == |r|)
  {
    WithoutInRange(q, p, |procs|);
    var v := procs[p].priority;
    if q[0] == p {
      assert Without(q, p) == q[1..];
    } else if procs[q[0]].priority <= v {
      BaseStillRight(q[1..], procs, p);
      assert Without(q, p)[1..] == Without(q[1..], p);
    }
  }

  lemma ReparentStep(s: State, me: nat, i: nat)
    requires Wf(s) && i < |s.procs|
    ensures Reparent(s, me, i) == Reparent(ReparentOne(s, me, i), me, i + 1)
  {
  }

  lemma ReparentDone(s: State, me: nat)
    requires Wf(s)
    ensures Reparent(s, me, |s.procs|) == s
  {
  }

  lemma InsertFront(q: seq<nat>, p: nat)
    ensures InsertAt(q, 0, p) == [p] + q
  {
  }

  lemma InsertBack(q: seq<nat>, p: nat)
    ensures InsertAt(q, |q|, p) == q + [p]
  {
  }

  lemma ResetStep(procs: seq<Pcb>, q: seq<nat>)
    requires q != [] && q[0] < |procs|
    ensures ResetIn(procs[q[0] := Reset(procs[q[0]])], q[1..]) == ResetIn(procs, q)
  {
  }

  lemma ResetNone(procs: seq<Pcb>)
    ensures ResetIn(procs, []) == procs
  {
  }

  // Boost() queue by queue.
  lemma BoostInTurn(s: State)
    requires Wf(s)
    ensures var q := s.l0 + (s.l1 + s.l2);
      Boost(s) == s.(procs := ResetIn(ResetIn(s.procs, s.sleep), q), l0 := q, l1 := [], l2 := [])
  {
    var q := s.l0 + (s.l1 + s.l2);
    assert Boost(s).procs == ResetIn(ResetIn(s.procs, s.sleep), q);
  }

  lemma ResetOk(b: Pcb, n: nat)
    requires PcbOk(b, n)
    ensures PcbOk(Reset(b), n)
  {
  }

  lemma BlankApart(n: nat)
    requires n > 0
    ensures Apart(Blank(n))
  {
  }

  lemma KillTable(s: State, pid: int)
    requires Inv(s)
    ensures forall k: nat :: k < |s.procs| ==> Kill(s, pid).procs[k] == SchedTable.EntryAfter(s, DoKill(pid), k)
  {
    hide Partition, Sorted, CpuOk, LockOk, Family, PidsOk, EmbryosOk, Kill, SchedTable.EntryAfter;
    forall k: nat | k < |s.procs| ensures Kill(s, pid).procs[k] == SchedTable.EntryAfter(s, DoKill(pid), k) {
      SchedTable.KillEntry(s, pid, k);
    }
  }

  lemma SetPriorityTable(s: State, pid: int, v: int)
    requires Inv(s) && s.cur.Some?
    ensures forall k: nat :: k < |s.procs| ==>
      SetPriority(s, pid, v).procs[k] == SchedTable.EntryAfter(s, DoSetPriority(pid, v), k)
  {
    TableStep(s, DoSetPriority(pid, v));
  }

  lemma ExitTable(s: State)
    requires Inv(s) && s.cur.Some? && s.cur.value != s.init
    ensures forall k: nat :: k < |s.procs| ==> Exit(s).procs[k] == SchedTable.EntryAfter(s, DoExit, k)
  {
    TableStep(s, DoExit);
  }

  lemma TableStep(s: State, st: Step)
    requires Inv(s) && Enabled(s, st)
    ensures forall k: nat :: k < |s.procs| ==> Apply(s, st).procs[k] == SchedTable.EntryAfter(s, st, k)
  {
    hide Partition, Sorted, CpuOk, LockOk, Family, PidsOk, EmbryosOk, Apply, SchedTable.EntryAfter;
    forall k: nat | k < |s.procs| ensures Apply(s, st).procs[k] == SchedTable.EntryAfter(s, st, k) {
      SchedTable.EntryStep(s, st, k);
    }
  }

  class Kernel {
    const pt: array<Entry>
    const l0: Queue
    const l1: Queue
    const l2: Queue
    const sleepq: Queue
    const unusedq: Queue
    var lockproc: Option<nat>
    var unlockproc: Option<nat>
    var cur: Option<nat>
    var initproc: Option<nat>
    var globalTicks: int
    var nextpid: int

    ghost function Abs(): (r: State)
      reads this, pt, l0, l1, l2, sleepq, unusedq
    {
      State(Table(pt[..]), l0.items, l1.items, l2.items, sleepq.items, unusedq.items,
            lockproc, unlockproc, globalTicks, nextpid, cur, if initproc == None then 0 else initproc.value)
    }

    ghost predicate Valid()
      reads this, pt, l0, l1, l2, sleepq, unusedq
    {
      && l0 != l1 && l0 != l2 && l0 != sleepq && l0 != unusedq && l1 != l2 && l1 != sleepq && l1 != unusedq
      && l2 != sleepq && l2 != unusedq && sleepq != unusedq
      && l0.Valid(pt[..]) && l1.Valid(pt[..]) && l2.Valid(pt[..]) && sleepq.Valid(pt[..]) && unusedq.Valid(pt[..])
      && Wf(Abs()) && Apart(Abs())
    }

    // pinit(): every slot goes to the unused queue.
    constructor (n: nat)
      requires n > 0
      ensures Valid() && Abs() == Blank(n)
    {
      hide Wf, Apart, Linked, Distinct, BlankPcb;
      pt := new Entry[n](_ => Entry(BlankPcb(), None, None));
      l0 := new Queue();
      l1 := new Queue();
      l2 := new Queue();
      sleepq := new Queue();
      unusedq := new Queue();
      lockproc, unlockproc, cur, initproc := None, None, None, None;
      globalTicks, nextpid := 0, 1;
      new;
      FillUnused();
      BlankApart(n);
    }

    // The loop of pinit().
    method FillUnused()
      requires unusedq.Valid(pt[..]) && unusedq.items == []
      requires forall j :: 0 <= j < pt.Length ==> pt[j].b == BlankPcb()
      modifies unusedq, pt
      ensures unusedq.Valid(pt[..]) && unusedq.items == seq(pt.Length, j => j)
      ensures Table(pt[..]) == seq(pt.Length, _ => BlankPcb())
    {
      hide Linked, Distinct, InsertAt;
      var i := 0;
      while i < pt.Length
        invariant 0 <= i <= pt.Length
        invariant unusedq.Valid(pt[..]) && unusedq.items == seq(i, j => j)
        invariant forall j :: 0 <= j < pt.Length ==> pt[j].b == BlankPcb()
      {
        InsertBack(unusedq.items, i);
        unusedq.Insert(pt, i, None);
        assert forall j :: 0 <= j < pt.Length ==> pt[j] == pt[..][j];
        i := i + 1;
      }
    }

    ghost function QueueAt(id: int): (r: Queue) {
      if id == 0 then l0 else if id == 1 then l1 else if id == 2 then l2 else if id == 3 then sleepq else unusedq
    }

    // insert() on one of the five queues.
    method Insert(q: Queue, ghost id: int, p: nat, base: Option<nat>)
      requires Valid() && Free(Abs(), p) && 0 <= id < 5 && q == QueueAt(id)
      requires base.Some? && q.items != [] ==> base.value in q.items
      modifies q, pt
      ensures Valid()
      ensures Abs() == Put(old(Abs()), id, InsertAt(old(q.items), old(q.PositionOf(base)), p))
    {
      hide Wf, Apart, Elsewhere, Linked, Relinked, Distinct, InRange, InsertAt;
      ghost var s, t, r := Abs(), pt[..], InsertAt(q.items, q.PositionOf(base), p);
      Joins(s, id, p, q.PositionOf(base));
      q.Insert(pt, p, base);
      Others(t, pt[..], Members(r), s, id);
      SameTable(t, pt[..], Members(r));
    }

    lemma Joins(s: State, id: int, p: nat, k: nat)
      requires Wf(s) && Apart(s) && 0 <= id < 5 && Free(s, p) && k <= |Get(s, id)|
      ensures var r := InsertAt(Get(s, id), k, p);
        Wf(Put(s, id, r)) && Apart(Put(s, id, r)) && Elsewhere(s, id, Members(r))
    {
      hide Apart;
      var q := Get(s, id);
      var r := InsertAt(q, k, p);
      InsertAtMembers(q, k, p);
      assert InRange(q, |s.procs|);
      PutWf(s, id, r);
      PutMore(s, id, r, p);
      TouchesNoOther(s, id, Members(r));
    }

    // Queues other than number id are as they were.
    lemma Others(t: seq<Entry>, u: seq<Entry>, touched: set<nat>, s: State, id: int)
      requires Relinked(t, u, touched)
      requires Elsewhere(s, id, touched)
      requires Linked(s.l0, t) && Linked(s.l1, t) && Linked(s.l2, t) && Linked(s.sleep, t) && Linked(s.unused, t)
      ensures id != 0 ==> Linked(s.l0, u)
      ensures id != 1 ==> Linked(s.l1, u)
      ensures id != 2 ==> Linked(s.l2, u)
      ensures id != 3 ==> Linked(s.sleep, u)
      ensures id != 4 ==> Linked(s.unused, u)
    {
      if id != 0 { LinkedElsewhere(s.l0, t, u, touched); }
      if id != 1 { LinkedElsewhere(s.l1, t, u, touched); }
      if id != 2 { LinkedElsewhere(s.l2, t, u, touched); }
      if id != 3 { LinkedElsewhere(s.sleep, t, u, touched); }
      if id != 4 { LinkedElsewhere(s.unused, t, u, touched); }
    }

    // delete() on one of the five queues.
    method Delete(q: Queue, ghost id: int, p: nat)
      requires Valid() && 0 <= id < 5 && q == QueueAt(id) && p in q.items
      modifies q, pt
      ensures Valid() && Free(Abs(), p)
      ensures Abs() == Put(old(Abs()), id, Without(old(q.items), p))
    {
      hide Wf, Apart, Free, Elsewhere, Linked, Relinked, Distinct, InRange, Without;
      ghost var s, t, q0 := Abs(), pt[..], q.items;
      ghost var r := Without(q0, p);
      Leaves(s, id, p);
      q.Delete(pt, p);
      Others(t, pt[..], Members(q0), s, id);
      assert Table(pt[..]) == Table(t) by { SameTable(t, pt[..], Members(q0)); }
    }

    lemma Leaves(s: State, id: int, p: nat)
      requires Wf(s) && Apart(s) && 0 <= id < 5 && p in Get(s, id) && Distinct(Get(s, id))
      ensures var r := Put(s, id, Without(Get(s, id), p)); Wf(r) && Apart(r) && Free(r, p)
      ensures Elsewhere(s, id, Members(Get(s, id)))
    {
      hide Apart, Free;
      var q := Get(s, id);
      WithoutMembers(q, p);
      WithoutInRange(q, p, |s.procs|);
      PutWf(s, id, Without(q, p));
      InQueue(s, id, p);
      PutLess(s, id, Without(q, p), p);
      TouchesNoOther(s, id, Members(q));
    }

    // dequeue() on one of the five queues.
    method Dequeue(q: Queue, ghost id: int) returns (p: Option<nat>)
      requires Valid() && 0 <= id < 5 && q == QueueAt(id)
      modifies q, pt
      ensures Valid()
      ensures old(q.items) == [] ==> p == None && Abs() == old(Abs())
      ensures old(q.items) != [] ==> p == Some(old(q.items)[0]) && Free(Abs(), p.value)
      ensures old(q.items) != [] ==> Abs() == Put(old(Abs()), id, old(q.items)[1..])
    {
      hide Wf, Apart, Free, Elsewhere, Linked, Relinked, Distinct, InRange;
      ghost var s, t, q0 := Abs(), pt[..], q.items;
      HeadLeaves(s, id);
      p := q.Dequeue(pt);
      Others(t, pt[..], Members(q0), s, id);
      SameTable(t, pt[..], Members(q0));
    }

    lemma HeadLeaves(s: State, id: int)
      requires Wf(s) && Apart(s) && 0 <= id < 5 && Distinct(Get(s, id))
      ensures var q := Get(s, id);
        q != [] ==> Wf(Put(s, id, q[1..])) && Apart(Put(s, id, q[1..])) && Free(Put(s, id, q[1..]), q[0])
      ensures Elsewhere(s, id, Members(Get(s, id)))
    {
      hide Apart, Free;
      var q := Get(s, id);
      TouchesNoOther(s, id, Members(q));
      if q != [] {
        InQueue(s, id, q[0]);
        PutWf(s, id, q[1..]);
        PutLess(s, id, q[1..], q[0]);
      }
    }

    lemma At(p: nat)
      requires Valid() && p < pt.Length
      ensures Abs().procs[p] == pt[p].b && PcbOk(pt[p].b, pt.Length) && |Abs().procs| == pt.Length
    {
      assert Abs().procs[p] == pt[p].b;
    }

    // Assign fields of *p other than the links.
    method Store(p: nat, b: Pcb)
      requires Valid() && p < pt.Length && PcbOk(b, pt.Length)
      modifies pt
      ensures Valid()
      ensures pt[..] == old(pt[..])[p := old(pt[p]).(b := b)]
      ensures Abs() == old(Abs()).(procs := old(Abs()).procs[p := b])
    {
      ghost var t := pt[..];
      pt[p] := pt[p].(b := b);
      assert pt[..] == t[p := t[p].(b := b)];
      assert Table(pt[..]) == Table(t)[p := b];
    }

    lemma FoundAbove(p: nat, i: nat)
      requires Valid() && p < pt.Length && i <= |l2.items|
      requires forall j :: 0 <= j < i ==> pt[l2.items[j]].b.priority <= pt[p].b.priority
      requires i < |l2.items| ==> pt[l2.items[i]].b.priority > pt[p].b.priority
      ensures FirstAbove(Abs().l2, Abs().procs, Abs().procs[p].priority) == i
    {
    }

    // higherpriority_proc()
    method HigherPriority(p: nat) returns (base: Option<nat>)
      requires Valid() && p < pt.Length
      ensures var s := Abs(); var k := FirstAbove(s.l2, s.procs, s.procs[p].priority);
        base == if k < |s.l2| then Some(s.l2[k]) else None
    {
      hide FirstAbove;
      ghost var i := 0;
      base := l2.head;
      while base != None
        invariant i <= |l2.items| && base == if i < |l2.items| then Some(l2.items[i]) else None
        invariant forall j :: 0 <= j < i ==> pt[l2.items[j]].b.priority <= pt[p].b.priority
        decreases |l2.items| - i
      {
        if pt[base.value].b.priority > pt[p].b.priority {
          FoundAbove(p, i);
          return;
        }
        base := pt[base.value].next;
        i := i + 1;
      }
      FoundAbove(p, i);
    }

    method EnqueueByPriority(p: nat)
      requires Valid() && Free(Abs(), p)
      modifies pt, l2
      ensures Valid() && Abs() == old(Abs()).(l2 := ByPriority(old(l2.items), old(Abs()).procs, p))
    {
      hide Wf, Apart, FirstAbove, InsertAt, Linked;
      LinkedInRange(l2.items, pt[..]);
      At(p);
      ghost var k := FirstAbove(l2.items, Abs().procs, Abs().procs[p].priority);
      var base := HigherPriority(p);
      if k < |l2.items| {
        SamePosition(l2.items, k, l2.PositionOf(base));
      }
      Insert(l2, 2, p, base);
    }

    method EnqueueLast(q: Queue, ghost id: int, p: nat)
      requires Valid() && Free(Abs(), p) && 0 <= id < 5 && q == QueueAt(id)
      modifies pt, q
      ensures Valid() && Abs() == Put(old(Abs()), id, old(q.items) + [p])
    {
      Insert(q, id, p, None);
      InsertBack(old(q.items), p);
    }

    // Link a runnable process into the queue of its level.
    method EnqueueAtLevel(p: nat)
      requires Valid() && Free(Abs(), p)
      modifies pt, l0, l1, l2
      ensures Valid() && Abs() == Enqueue(old(Abs()), p)
    {
      if pt[p].b.level == 2 {
        EnqueueByPriority(p);
      } else if pt[p].b.level == 1 {
        EnqueueLast(l1, 1, p);
      } else {
        EnqueueLast(l0, 0, p);
      }
    }

    // wakeup1()
    method Wakeup1(c: Chan)
      requires Valid()
      modifies pt, l0, l1, l2, sleepq
      ensures Valid() && Abs() == Wakeup(old(Abs()), c)
    {
      ghost var todo := sleepq.items;
      ghost var done: seq<nat> := [];
      var p := sleepq.head;
      while p != None
        invariant Valid() && sleepq.items == done + todo
        invariant p == if todo == [] then None else Some(todo[0])
        invariant InRange(todo, |Abs().procs|)
        invariant WakeEach(Abs(), todo, c) == Wakeup(old(Abs()), c)
        decreases |todo|
      {
        ghost var kept;
        p, kept := WakeIf(p.value, c, done, todo);
        done, todo := kept, todo[1..];
      }
    }

    // One turn of the loop in wakeup1(): todo is the part of the sleep queue
    // from p on.
    method WakeIf(p: nat, c: Chan, ghost done: seq<nat>, ghost todo: seq<nat>)
      returns (next: Option<nat>, ghost kept: seq<nat>)
      requires Valid() && sleepq.items == done + todo && todo != [] && todo[0] == p
      requires InRange(todo, |Abs().procs|)
      modifies pt, l0, l1, l2, sleepq
      ensures Valid() && sleepq.items == kept + todo[1..]
      ensures next == if todo[1..] == [] then None else Some(todo[1..][0])
      ensures InRange(todo[1..], |Abs().procs|)
      ensures WakeEach(Abs(), todo[1..], c) == WakeEach(old(Abs()), todo, c)
    {
      assert sleepq.items[|done|] == p;
      next := pt[p].next;
      assert next == NextIn(sleepq.items, |done|);
      At(p);
      if pt[p].b.chan == c {
        kept := done;
        WithoutAt(sleepq.items, |done|);
        WakeOne(p);
      } else {
        kept := done + [p];
      }
    }

    // Take p out of the sleep queue and make it runnable.
    method WakeOne(p: nat)
      requires Valid() && p in sleepq.items
      modifies pt, l0, l1, l2, sleepq
      ensures Valid() && Abs() == Wake(old(Abs()), p)
      ensures sleepq.items == Without(old(sleepq.items), p)
    {
      Delete(sleepq, 3, p);
      At(p);
      Store(p, pt[p].b.(state := RUNNABLE));
      EnqueueAtLevel(p);
    }

    // ------------------------------------------------ boost and context switch

    // L0, L1 and L2 become one queue.
    method MergeLevels()
      requires Valid()
      modifies pt, l0, l1, l2
      ensures Valid()
      ensures Abs() == old(Abs()).(l0 := old(l0.items) + (old(l1.items) + old(l2.items)), l1 := [], l2 := [])
    {
      ghost var t, s := pt[..], Abs();
      l1.Merge(pt, l2);
      ghost var u := pt[..];
      LinkedElsewhere(s.l0, t, u, Members(s.l1 + s.l2));
      LinkedElsewhere(s.sleep, t, u, Members(s.l1 + s.l2));
      LinkedElsewhere(s.unused, t, u, Members(s.l1 + s.l2));
      l0.Merge(pt, l1);
      LinkedElsewhere(s.sleep, u, pt[..], Members(s.l0 + (s.l1 + s.l2)));
      LinkedElsewhere(s.unused, u, pt[..], Members(s.l0 + (s.l1 + s.l2)));
      assert Table(pt[..]) == Table(u) == Table(t);
      assert l2.items == [];
    }

    // Give every process in q a fresh account.
    method ResetAll(q: Queue, ghost id: int)
      requires Valid() && 0 <= id < 5 && q == QueueAt(id)
      modifies pt
      ensures Valid()
      ensures Abs() == old(Abs()).(procs := ResetIn(old(Abs()).procs, q.items))
    {
      hide Wf, Apart, ResetIn, Reset;
      ghost var i := 0;
      ghost var todo := q.items;
      var p := q.head;
      while p != None
        invariant Valid()
        invariant i <= |q.items| && todo == q.items[i..]
        invariant p == if todo == [] then None else Some(todo[0])
        invariant InRange(todo, pt.Length)
        invariant Abs() == old(Abs()).(procs := Abs().procs)
        invariant ResetIn(Abs().procs, todo) == ResetIn(old(Abs()).procs, q.items)
        decreases |todo|
      {
        At(p.value);
        ResetStep(Abs().procs, todo);
        assert PcbOk(Reset(pt[p.value].b), pt.Length) by { ResetOk(pt[p.value].b, pt.Length); }
        Store(p.value, Reset(pt[p.value].b));
        assert pt[p.value].next == NextIn(q.items, i);
        p := pt[p.value].next;
        i := i + 1;
        todo := todo[1..];
      }
      ResetNone(Abs().procs);
    }

    // priority_boosting()
    method PriorityBoosting()
      requires Valid()
      modifies pt, l0, l1, l2
      ensures Valid() && Abs() == Boost(old(Abs()))
    {
      hide Wf, Apart, ResetIn, Reset, Boost;
      BoostInTurn(Abs());
      MergeLevels();
      ResetAll(sleepq, 3);
      ResetAll(l0, 0);
    }

    method SetCur(c: Option<nat>)
      requires Valid() && (c.Some? ==> c.value < pt.Length)
      modifies this`cur
      ensures Valid() && Abs() == old(Abs()).(cur := c)
    {
      cur := c;
    }

    method SetTicks(k: int)
      requires Valid()
      modifies this`globalTicks
      ensures Valid() && Abs() == old(Abs()).(gticks := k)
    {
      globalTicks := k;
    }

    // releasemlfq()
    method ReleaseMlfq()
      requires Valid()
      modifies this`lockproc
      ensures Valid() && Abs() == old(Abs()).(lock := None)
    {
      if lockproc != None {
        lockproc := None;
      }
    }

    // The part of scheduler() after the process has switched back.
    method SwitchedBack()
      requires Valid()
      modifies this, pt, l0, l1, l2
      ensures Valid() && Abs() == SwitchBack(old(Abs()))
    {
      hide Wf, Apart, Boost;
      if globalTicks == BOOST_TICKS {
        SetTicks(0);
        PriorityBoosting();
        ReleaseMlfq();
      }
      SetCur(None);
    }

    // Dequeue the head of the first non-empty level.
    method PickNext() returns (p: Option<nat>)
      requires Valid() && CanDispatch(Abs())
      modifies pt, l0, l1, l2
      ensures Valid() && p == Some(Next(old(Abs()))) && p.value < pt.Length
      ensures var s := old(Abs());
        Abs() == if s.l0 != [] then s.(l0 := s.l0[1..])
                 else if s.l1 != [] then s.(l1 := s.l1[1..])
                 else s.(l2 := s.l2[1..])
    {
      if l0.head != None {
        p := Dequeue(l0, 0);
      } else if l1.head != None {
        p := Dequeue(l1, 1);
      } else {
        p := Dequeue(l2, 2);
      }
    }

    // The part of scheduler() before the switch, and the tail of sleep() for a
    // process that wakes up.
    method SchedulerDispatch()
      requires Valid() && CanDispatch(Abs())
      modifies this, pt, l0, l1, l2
      ensures Valid() && Abs() == Dispatch(old(Abs()))
    {
      var p := PickNext();
      hide Wf, Apart, Valid, Abs;
      SetCur(p);
      At(p.value);
      Store(p.value, pt[p.value].b.(state := RUNNING, chan := NoChan));
    }

    // ------------------------------------------------------------------- yield

    // What the running process may rely on.
    lemma CurFacts()
      requires Valid() && Inv(Abs()) && cur.Some?
      ensures cur.value < pt.Length && Free(Abs(), cur.value) && Abs().procs[cur.value] == pt[cur.value].b
      ensures pt[cur.value].b.state == RUNNING && PcbOk(pt[cur.value].b, pt.Length)
    {
      RunningFacts(Abs());
      At(cur.value);
    }

    // insert() before the head of L0.
    method InsertAtHead(p: nat)
      requires Valid() && Free(Abs(), p)
      modifies pt, l0
      ensures Valid() && Abs() == old(Abs()).(l0 := [p] + old(l0.items))
    {
      assert l0.PositionOf(l0.head) == 0;
      Insert(l0, 0, p, l0.head);
      InsertFront(old(l0.items), p);
    }

    // yield() up to the switch.
    method YieldCpu()
      requires Valid() && Inv(Abs()) && cur.Some?
      modifies this, pt, l0, l1, l2
      ensures Valid() && Abs() == GiveUp(old(Abs()))
    {
      CurFacts();
      var p := cur.value;
      hide Inv, Wf, Apart, GiveUp, Enqueue;
      if lockproc == Some(p) || unlockproc == Some(p) {
        YieldToHead(p);
      } else {
        YieldCharged(p);
      }
    }

    method YieldToHead(p: nat)
      requires Valid() && Free(Abs(), p) && cur == Some(p) && Favoured(Abs(), p)
      modifies this`globalTicks, this`unlockproc, pt, l0
      ensures Valid() && Abs() == GiveUp(old(Abs()))
    {
      hide Apart, GiveUp, AtHead;
      GiveUpAtHead(Abs());
      SetTicks(globalTicks + 1);
      BackToHead(p);
    }

    method YieldCharged(p: nat)
      requires Valid() && Free(Abs(), p) && cur == Some(p) && !Favoured(Abs(), p)
      modifies this`globalTicks, pt, l0, l1, l2
      ensures Valid() && Abs() == GiveUp(old(Abs()))
    {
      hide Apart, GiveUp, Charged, Enqueue;
      GiveUpCharged(Abs());
      SetTicks(globalTicks + 1);
      ChargeAndEnqueue(p);
    }

    method ChargeAndEnqueue(p: nat)
      requires Valid() && Free(Abs(), p)
      modifies pt, l0, l1, l2
      ensures Valid()
      ensures Abs() == Enqueue(Charged(old(Abs()), p), p)
    {
      At(p);
      var b := ChargeTick(pt[p].b.(state := RUNNABLE));
      Store(p, b);
      EnqueueAtLevel(p);
    }

    // The lock holder, or the process that last unlocked, goes in at the head.
    method BackToHead(p: nat)
      requires Valid() && Free(Abs(), p)
      modifies this`unlockproc, pt, l0
      ensures Valid()
      ensures Abs() == AtHead(old(Abs()), p)
    {
      hide Wf, Apart, Valid;
      At(p);
      Store(p, pt[p].b.(state := RUNNABLE, ticks := pt[p].b.ticks + 1));
      ClearUnlock(p);
      InsertAtHead(p);
    }

    method ClearUnlock(p: nat)
      requires Valid()
      modifies this`unlockproc
      ensures Valid() && Abs() == old(Abs()).(unlock := if old(unlockproc) == Some(p) then None else old(unlockproc))
    {
      if unlockproc == Some(p) {
        unlockproc := None;
      }
    }

    // The quantum check of yield(), statement by statement.
    static method ChargeTick(b: Pcb) returns (r: Pcb)
      requires 0 <= b.level <= 2
      ensures r == Charge(b)
    {
      r := b.(ticks := b.ticks + 1);
      if r.ticks == r.level * 2 + 4 {
        r := r.(ticks := 0);
        if r.level == 2 {
          r := r.(priority := if r.priority == 0 then 0 else r.priority - 1);
        }
        r := r.(level := if r.level == 0 then 1 else 2);
      }
    }

    // yield()
    method YieldSwitch()
      requires Valid() && Inv(Abs()) && cur.Some?
      modifies this, pt, l0, l1, l2
      ensures Valid() && Abs() == Yield(old(Abs()))
    {
      YieldCpu();
      SwitchedBack();
    }

    // ------------------------------------------------------------------- sleep

    // sleep() up to the point where the process is resumed.
    method Sleep(c: Chan)
      requires Valid() && Inv(Abs()) && cur.Some?
      modifies this, pt, l0, l1, l2, sleepq
      ensures Valid() && Abs() == SleepOn(old(Abs()), c)
      ensures old(cur).value < pt.Length
      ensures var p := old(cur).value; pt[p].b == old(Abs()).procs[p].(state := SLEEPING, chan := c)
    {
      hide Wf, Apart, Core, SwitchBack, Valid;
      CurFacts();
      var p := cur.value;
      SchedTable.SleepEntry(Abs(), c, p);
      ReleaseMlfq();
      Store(p, pt[p].b.(chan := c, state := SLEEPING));
      EnqueueLast(sleepq, 3, p);
      SwitchedBack();
      At(p);
    }

    // -------------------------------------------------------- the scheduler lock

    // mlfqlock()
    method MlfqLock()
      requires Valid() && cur.Some?
      modifies this
      ensures Valid() && Abs() == Lock(old(Abs()))
    {
      if lockproc == None {
        lockproc := cur;
        globalTicks := 0;
      }
    }

    // mlfqunlock()
    method MlfqUnlock()
      requires Valid() && cur.Some?
      modifies this, pt
      ensures Valid() && Abs() == Unlock(old(Abs()))
    {
      var p := cur.value;
      if lockproc != None {
        lockproc := None;
        unlockproc := Some(p);
        At(p);
        Store(p, pt[p].b.(level := 0, priority := 3, ticks := 0));
      }
    }

    // ------------------------------------------------------------------- fork

    // The critical section of allocproc().
    method AllocProc() returns (p: Option<nat>)
      requires Valid()
      modifies this`nextpid, pt, unusedq
      ensures Valid() && Abs() == Alloc(old(Abs()))
      ensures p == if old(unusedq.items) == [] then None else Some(old(unusedq.items)[0])
    {
      hide Wf, Apart, Linked;
      p := Dequeue(unusedq, 4);
      if p != None {
        At(p.value);
        Store(p.value, pt[p.value].b.(state := EMBRYO, pid := nextpid, priority := 3, level := 0, ticks := 0));
        TakePid();
      }
    }

    method TakePid()
      requires Valid()
      modifies this`nextpid
      ensures Valid() && Abs() == old(Abs()).(nextpid := old(nextpid) + 1)
    {
      nextpid := nextpid + 1;
    }

    // The failure paths of allocproc() and fork().
    method GiveBack(e: nat)
      requires Valid() && Free(Abs(), e)
      modifies pt, unusedq
      ensures Valid() && Abs() == ForkFail(old(Abs()), e)
    {
      At(e);
      Store(e, pt[e].b.(state := UNUSED));
      EnqueueLast(unusedq, 4, e);
    }

    // fork() once the child is complete.
    method FinishFork(e: nat)
      requires Valid() && Free(Abs(), e) && cur.Some?
      modifies pt, l0
      ensures Valid() && Abs() == ForkFinish(old(Abs()), e)
      ensures IsChild(Abs(), cur.value, e) && Abs().procs[e].state == RUNNABLE
    {
      At(e);
      Store(e, pt[e].b.(parent := cur, state := RUNNABLE));
      EnqueueLast(l0, 0, e);
    }

    // userinit()
    method UserInit()
      requires Valid() && Abs() == Blank(pt.Length) && pt.Length > 0
      modifies this, pt, l0, unusedq
      ensures Valid() && Abs() == Boot(pt.Length) && initproc == Some(0)
    {
      var p := AllocProc();
      SetInit(p.value);
      At(p.value);
      Store(p.value, pt[p.value].b.(state := RUNNABLE));
      EnqueueLast(l0, 0, p.value);
    }

    method SetInit(p: nat)
      requires Valid() && p < pt.Length
      modifies this`initproc
      ensures Valid() && Abs() == old(Abs()).(init := p) && initproc == Some(p)
    {
      initproc := Some(p);
    }

    // -------------------------------------------------------------- exit, wait

    // exit() from the point where it takes ptable.lock.
    method ExitProc()
      requires Valid() && Inv(Abs()) && cur.Some? && Abs().cur != Some(Abs().init)
      modifies this, pt, l0, l1, l2, sleepq
      ensures Valid() && Abs() == Exit(old(Abs()))
      ensures forall k: nat :: k < |old(Abs()).procs| ==> Abs().procs[k] == SchedTable.EntryAfter(old(Abs()), DoExit, k)
    {
      hide SchedTable.EntryAfter;
      ExitTable(Abs());
      CurFacts();
      var p := cur.value;
      Wakeup1(ParentChan(pt[p].b));
      PassChildren(p);
      At(p);
      Store(p, pt[p].b.(state := ZOMBIE));
      ReleaseMlfq();
      SwitchedBack();
    }

    // The loop in exit() that passes the children of me to init.
    method PassChildren(me: nat)
      requires Valid()
      modifies pt, l0, l1, l2, sleepq
      ensures Valid() && Abs() == Reparent(old(Abs()), me, 0)
      ensures var s := old(Abs()); |Abs().procs| == |s.procs| && forall k: nat :: k < |s.procs| ==>
        Abs().procs[k].parent == if IsChild(s, me, k) then Some(s.init) else s.procs[k].parent
    {
      hide Wf, Apart, Reparent;
      ReparentParents(Abs(), me, 0);
      var i := 0;
      while i < pt.Length
        invariant 0 <= i <= pt.Length == |Abs().procs| && Valid()
        invariant Reparent(Abs(), me, i) == Reparent(old(Abs()), me, 0)
      {
        PassChild(me, i);
        i := i + 1;
      }
      ReparentDone(Abs(), me);
    }

    method PassChild(me: nat, i: nat)
      requires Valid() && i < pt.Length == |Abs().procs|
      modifies pt, l0, l1, l2, sleepq
      ensures Valid() && |Abs().procs| == pt.Length
      ensures Reparent(Abs(), me, i + 1) == Reparent(old(Abs()), me, i)
    {
      At(i);
      ReparentStep(Abs(), me, i);
      if pt[i].b.parent == Some(me) {
        var dead := pt[i].b.state == ZOMBIE;
        var init := if initproc == None then 0 else initproc.value;
        Store(i, pt[i].b.(parent := Some(init)));
        if dead {
          Wakeup1(EntryOf(init));
        }
      }
    }

    // The scan of wait(): the first dead child, or the size of the table and
    // whether there are children at all.
    method ScanChildren(me: nat) returns (z: nat, haveKids: bool)
      requires Valid()
      ensures z == FirstDead(Abs(), me, 0)
      ensures z == |Abs().procs| ==> (haveKids <==> exists j :: 0 <= j < |Abs().procs| && IsChild(Abs(), me, j))
    {
      haveKids := false;
      z := 0;
      ghost var s := Abs();
      while z < pt.Length
        invariant z <= pt.Length == |s.procs|
        invariant FirstDead(s, me, 0) == FirstDead(s, me, z)
        invariant haveKids <==> exists j :: 0 <= j < z && IsChild(s, me, j)
      {
        At(z);
        if pt[z].b.parent == Some(me) {
          assert IsChild(s, me, z);
          haveKids := true;
          if pt[z].b.state == ZOMBIE {
            return;
          }
        }
        z := z + 1;
      }
    }

    // One turn of the loop in wait(): the number of a reaped child, -1 when
    // there is nothing to wait for, or None when the caller has gone to sleep.
    method WaitScan() returns (r: Option<int>)
      requires Valid() && Inv(Abs()) && cur.Some?
      modifies this, pt, l0, l1, l2, sleepq, unusedq
      ensures Valid() && Abs() == Wait(old(Abs()))
      ensures var s := old(Abs()); var z := FirstDead(s, s.cur.value, 0);
        r == if z < |s.procs| then Some(s.procs[z].pid) else if CanWait(s, s.cur.value) then None else Some(-1)
    {
      hide Wf, Apart, EmbryosOk, SleepOn;
      CurFacts();
      ghost var s := Abs();
      SchedEffects.WaitBlocks(s);
      var me := cur.value;
      var z, haveKids := ScanChildren(me);
      if z < pt.Length {
        At(z);
        EmbryoFacts(s, z);
        r := Some(pt[z].b.pid);
        Reap(z);
        WaitReaps(s);
      } else if !haveKids || pt[me].b.killed {
        r := Some(-1);
        WaitReturns(s);
      } else {
        r := None;
        WaitSleeps(s);
        Sleep(EntryOf(me));
      }
    }

    method Reap(z: nat)
      requires Valid() && Free(Abs(), z)
      modifies pt, unusedq
      ensures Valid()
      ensures var s := old(Abs());
        Abs() == s.(procs := s.procs[z := Reaped(s.procs[z])], unused := s.unused + [z])
    {
      At(z);
      Store(z, pt[z].b.(pid := 0, parent := None, killed := false, state := UNUSED,
                        priority := 3, level := 0, ticks := 0));
      EnqueueLast(unusedq, 4, z);
    }

    // ------------------------------------------------------- kill, setPriority

    // kill()
    method KillPid(pid: int) returns (r: int)
      requires Valid() && Inv(Abs())
      modifies pt, l0, l1, l2, sleepq
      ensures Valid() && Abs() == Kill(old(Abs()), pid)
      ensures forall k: nat :: k < |old(Abs()).procs| ==>
        Abs().procs[k] == SchedTable.EntryAfter(old(Abs()), DoKill(pid), k)
      ensures r == if exists j :: 0 <= j < |old(Abs()).procs| && old(Abs()).procs[j].pid == pid then 0 else -1
    {
      hide SchedTable.EntryAfter;
      ghost var s := Abs();
      KillTable(s, pid);
      var k := 0;
      while k < pt.Length
        invariant 0 <= k <= pt.Length == |s.procs| && Abs() == s && Valid()
        invariant FirstPid(s.procs, pid, 0) == FirstPid(s.procs, pid, k)
        invariant forall j :: 0 <= j < k ==> s.procs[j].pid != pid
      {
        At(k);
        if pt[k].b.pid == pid {
          KillAt(k);
          assert s.procs[k].pid == pid;
          return 0;
        }
        k := k + 1;
      }
      return -1;
    }

    method KillAt(k: nat)
      requires Valid() && Inv(Abs()) && k < pt.Length
      modifies pt, l0, l1, l2, sleepq
      ensures Valid()
      ensures var s := old(Abs());
        Abs() == if s.procs[k].state == SLEEPING then Wake(WithKilled(s, k), k) else WithKilled(s, k)
    {
      At(k);
      var asleep := pt[k].b.state == SLEEPING;
      if asleep {
        assert Belongs(Abs().procs, Abs().lock, InSleep, k);
      }
      Store(k, pt[k].b.(killed := true));
      if asleep {
        WakeOne(k);
      }
    }

    // The scan of setPriority: the last slot with this pid.
    method FindPid(pid: int) returns (p: Option<nat>)
      requires Valid()
      ensures p == LastPid(Abs().procs, pid, |Abs().procs|)
    {
      ghost var s := Abs();
      p := None;
      var i := 0;
      while i < pt.Length
        invariant 0 <= i <= pt.Length == |s.procs|
        invariant p == LastPid(s.procs, pid, i)
      {
        At(i);
        if pt[i].b.pid == pid {
          p := Some(i);
        }
        i := i + 1;
      }
    }

    // setPrioity_arrangeQueue()
    method SetPriorityPid(pid: int, v: int)
      requires Valid() && Inv(Abs()) && cur.Some?
      modifies pt, l2
      ensures Valid() && Abs() == SetPriority(old(Abs()), pid, v)
      ensures forall k: nat :: k < |old(Abs()).procs| ==>
        Abs().procs[k] == SchedTable.EntryAfter(old(Abs()), DoSetPriority(pid, v), k)
    {
      hide SchedTable.EntryAfter;
      ghost var s := Abs();
      SetPriorityTable(s, pid, v);
      var p := FindPid(pid);
      if p != None {
        At(p.value);
        if pt[p.value].b.state != UNUSED {
          InL2Exactly(s, p.value);
          NewPriority(p.value, v);
        }
      }
    }

    method NewPriority(p: nat, v: int)
      requires Valid() && p < pt.Length
      requires Abs().procs[p].level == 2 && Abs().procs[p].state == RUNNABLE ==> p in l2.items
      modifies pt, l2
      ensures Valid()
      ensures var s := old(Abs());
        Abs() == if s.procs[p].level == 2 && s.procs[p].state == RUNNABLE then Rearrange(WithPriority(s, p, v), p)
                 else WithPriority(s, p, v)
    {
      At(p);
      var waits := pt[p].b.level == 2 && pt[p].b.state == RUNNABLE;
      Store(p, pt[p].b.(priority := v));
      if waits {
        Arrange(p);
      }
    }

    // The insertion point is looked up while p is still linked.
    method Arrange(p: nat)
      requires Valid() && p in l2.items && p < pt.Length
      modifies pt, l2
      ensures Valid() && Abs() == Rearrange(old(Abs()), p)
    {
      hide Wf, Apart, FirstAbove, Without, InsertAt, Rearrange;
      ghost var s := Abs();
      var base := HigherPriority(p);
      BaseRemains(s, p, base);
      Delete(l2, 2, p);
      RearrangedBy(s, p, base, l2.PositionOf(base));
      Insert(l2, 2, p, base);
    }

    lemma BaseRemains(s: State, p: nat, base: Option<nat>)
      requires Wf(s) && Distinct(s.l2) && p in s.l2 && p < |s.procs|
      requires var k := FirstAbove(s.l2, s.procs, s.procs[p].priority);
        base == if k < |s.l2| then Some(s.l2[k]) else None
      ensures base.Some? ==> base.value in Without(s.l2, p)
    {
      BaseStillRight(s.l2, s.procs, p);
    }

    lemma RearrangedBy(s: State, p: nat, base: Option<nat>, j: nat)
      requires Wf(s) && Distinct(s.l2) && p in s.l2 && p < |s.procs| && j <= |Without(s.l2, p)|
      requires var k := FirstAbove(s.l2, s.procs, s.procs[p].priority);
        base == if k < |s.l2| then Some(s.l2[k]) else None
      requires base == None ==> j == |Without(s.l2, p)|
      requires base.Some? ==> j < |Without(s.l2, p)| && Without(s.l2, p)[j] == base.value
      ensures Rearrange(s, p) == s.(l2 := InsertAt(Without(s.l2, p), j, p))
    {
      hide FirstAbove, Without, InsertAt;
      var r := Without(s.l2, p);
      BaseStillRight(s.l2, s.procs, p);
      WithoutMembers(s.l2, p);
      assert FirstAbove(r, s.procs, s.procs[p].priority) == j;
    }

    // A fault in user space.
    method FaultCur()
      requires Valid() && Inv(Abs()) && cur.Some?
      modifies pt
      ensures Valid() && Abs() == Fault(old(Abs()))
    {
      CurFacts();
      Store(cur.value, pt[cur.value].b.(killed := true));
    }

    // ------------------------------------------------------------- whole kernel

    // One critical section, and with it the step of the state machine.
    method Perform(st: Step)
      requires Valid() && Inv(Abs()) && Enabled(Abs(), st)
      modifies this, pt, l0, l1, l2, sleepq, unusedq
      ensures Valid() && Abs() == Apply(old(Abs()), st) && Inv(Abs())
      ensures forall k: nat :: k < pt.Length ==> pt[k].b == SchedTable.EntryAfter(old(Abs()), st, k)
    {
      hide Inv, Apply, Enabled, SchedTable.EntryAfter;
      ghost var s := Abs();
      TableStep(s, st);
      PerformStep(st);
      forall k: nat | k < pt.Length ensures pt[k].b == SchedTable.EntryAfter(s, st, k) {
        At(k);
      }
    }

    method PerformStep(st: Step)
      requires Valid() && Inv(Abs()) && Enabled(Abs(), st)
      modifies this, pt, l0, l1, l2, sleepq, unusedq
      ensures Valid() && Abs() == Apply(old(Abs()), st) && Inv(Abs())
    {
      hide Wf, Apart, Core, EmbryosOk, Lock, Unlock, Alloc, Wait, Exit, Kill, SetPriority, Fault, Wakeup, Dispatch,
        Yield, SleepOn;
      StepKeeps(Abs(), st);
      match st
      case DoDispatch => SchedulerDispatch();
      case DoYield => YieldSwitch();
      case DoSleep(a) => Sleep(Address(a));
      case DoWait => var _ := WaitScan();
      case DoExit => ExitProc();
      case DoAlloc => var _ := AllocProc();
      case DoForkFail(e) => EmbryoFacts(Abs(), e); GiveBack(e);
      case DoForkFinish(e) => EmbryoFacts(Abs(), e); FinishFork(e);
      case DoWakeup(c) => Wakeup1(c);
      case DoKill(pid) => var _ := KillPid(pid);
      case DoSetPriority(pid, v) => SetPriorityPid(pid, v);
      case DoLock => MlfqLock();
      case DoUnlock => MlfqUnlock();
      case DoFault => FaultCur();
    }

    // Any sequence of critical sections, and with it the run of the state machine.
    method PerformAll(tr: seq<Step>)
      requires Valid() && Inv(Abs()) && CanRun(Abs(), tr)
      modifies this, pt, l0, l1, l2, sleepq, unusedq
      ensures Valid() && Abs() == Exec(old(Abs()), tr) && Inv(Abs())
    {
      hide Wf, Apart, Partition, Sorted, CpuOk, LockOk, Family, PidsOk, EmbryosOk, Valid, Abs, Apply, Enabled;
      var i := 0;
      while i < |tr|
        invariant 0 <= i <= |tr| && Valid() && Inv(Abs())
        invariant CanRun(Abs(), tr[i..]) && Exec(Abs(), tr[i..]) == Exec(old(Abs()), tr)
      {
        assert tr[i..][0] == tr[i] && tr[i..][1..] == tr[i + 1..];
        Perform(tr[i]);
        i := i + 1;
      }
    }
  }
}
