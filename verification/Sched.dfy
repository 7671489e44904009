// The multilevel feedback queue scheduler of proc.c as a state machine over
// values: each queue is the sequence of its slots, head first, and each
// critical section under ptable.lock is one function on the state.
module Sched {
  import opened Wrappers
  import opened Slots

  datatype ProcState = UNUSED | EMBRYO | SLEEPING | RUNNABLE | RUNNING | ZOMBIE

  // What a process sleeps on. wait() sleeps on the address of the caller's own
  // table entry; every other channel is the address of some other object.
  datatype Chan = NoChan | EntryOf(slot: nat) | Address(a: int)

  datatype Pcb = Pcb(
    state: ProcState,
    pid: int,
    parent: Option<nat>,
    chan: Chan,
    killed: bool,
    priority: int,
    level: int,
    ticks: int)

  datatype State = State(
    procs: seq<Pcb>,
    l0: seq<nat>,
    l1: seq<nat>,
    l2: seq<nat>,
    sleep: seq<nat>,
    unused: seq<nat>,
    lock: Option<nat>,
    unlock: Option<nat>,
    gticks: int,
    nextpid: int,
    cur: Option<nat>,
    init: nat)

  const DEFAULT_PRIORITY := 3
  const BOOST_TICKS := 100

  predicate PcbOk(b: Pcb, n: nat) {
    && 0 <= b.level <= 2
    && (b.parent.Some? ==> b.parent.value < n)
  }

  // Every slot number in the state names an entry of the process table.
  predicate Wf(s: State) {
    var n := |s.procs|;
    && (forall i | 0 <= i < n :: PcbOk(s.procs[i], n))
    && InRange(s.l0, n) && InRange(s.l1, n) && InRange(s.l2, n)
    && InRange(s.sleep, n) && InRange(s.unused, n)
    && (s.lock.Some? ==> s.lock.value < n)
    && (s.unlock.Some? ==> s.unlock.value < n)
    && (s.cur.Some? ==> s.cur.value < n)
    && s.init < n
  }

  // ------------------------------------------------------------ L2 insertion

  // Position of the first slot of q whose priority value exceeds v, or |q|.
  function FirstAbove(q: seq<nat>, procs: seq<Pcb>, v: int): (k: nat)
    requires InRange(q, |procs|)
    ensures k <= |q|
    ensures forall i :: 0 <= i < k ==> procs[q[i]].priority <= v
    ensures k < |q| ==> procs[q[k]].priority > v
  {
    if q == [] || procs[q[0]].priority > v then 0 else 1 + FirstAbove(q[1..], procs, v)
  }

  // Put p before the first slot with a larger priority value.
  function ByPriority(q: seq<nat>, procs: seq<Pcb>, p: nat): (r: seq<nat>)
    requires InRange(q, |procs|) && p < |procs|
  {
    InsertAt(q, FirstAbove(q, procs, procs[p].priority), p)
  }

  // A process that may run again joins the queue of its level.
  function Enqueue(s: State, p: nat): (r: State)
    requires Wf(s) && p < |s.procs|
    ensures Wf(r)
    ensures r == s.(l0 := r.l0, l1 := r.l1, l2 := r.l2)
  {
    if s.procs[p].level == 2 then s.(l2 := ByPriority(s.l2, s.procs, p))
    else if s.procs[p].level == 1 then s.(l1 := s.l1 + [p])
    else s.(l0 := s.l0 + [p])
  }

  // ---------------------------------------------------------- sleep, wakeup

  function Wake(s: State, p: nat): (r: State)
    requires Wf(s) && p < |s.procs|
    ensures Wf(r) && |r.procs| == |s.procs|
    ensures r == s.(l0 := r.l0, l1 := r.l1, l2 := r.l2, sleep := r.sleep,
                    procs := s.procs[p := s.procs[p].(state := RUNNABLE)])
  {
    WithoutInRange(s.sleep, p, |s.procs|);
    Enqueue(s.(sleep := Without(s.sleep, p),
               procs := s.procs[p := s.procs[p].(state := RUNNABLE)]), p)
  }

  // Wake those slots of todo that sleep on c, in order.
  function WakeEach(s: State, todo: seq<nat>, c: Chan): (r: State)
    requires Wf(s) && InRange(todo, |s.procs|)
    ensures Wf(r) && |r.procs| == |s.procs|
    decreases |todo|
  {
    if todo == [] then s
    else if s.procs[todo[0]].chan == c then WakeEach(Wake(s, todo[0]), todo[1..], c)
    else WakeEach(s, todo[1..], c)
  }

  function Wakeup(s: State, c: Chan): (r: State)
    requires Wf(s)
    ensures Wf(r) && |r.procs| == |s.procs|
  {
    WakeEach(s, s.sleep, c)
  }

  // ------------------------------------------------- boost and context switch

  function Reset(b: Pcb): (r: Pcb) {
    b.(level := 0, priority := DEFAULT_PRIORITY, ticks := 0)
  }

  function Boost(s: State): (r: State)
    requires Wf(s)
    ensures Wf(r) && |r.procs| == |s.procs|
  {
    var q := s.l0 + (s.l1 + s.l2);
    s.(l0 := q, l1 := [], l2 := [],
       procs := seq(|s.procs|, i requires 0 <= i < |s.procs| =>
                  if i in s.sleep || i in q then Reset(s.procs[i]) else s.procs[i]))
  }

  // What the scheduler does when a process has switched back to it.
  function SwitchBack(s: State): (r: State)
    requires Wf(s)
    ensures Wf(r) && |r.procs| == |s.procs|
  {
    var t := if s.gticks == BOOST_TICKS then Boost(s.(gticks := 0)).(lock := None) else s;
    t.(cur := None)
  }

  function SleepOn(s: State, c: Chan): (r: State)
    requires Wf(s) && s.cur.Some?
    ensures Wf(r) && |r.procs| == |s.procs|
  {
    var p := s.cur.value;
    SwitchBack(s.(lock := None,
                  procs := s.procs[p := s.procs[p].(chan := c, state := SLEEPING)],
                  sleep := s.sleep + [p]))
  }

  // ---------------------------------------------------------------- dispatch

  predicate CanDispatch(s: State) {
    s.cur == None && (s.l0 != [] || s.l1 != [] || s.l2 != [])
  }

  // The head of the first non-empty level.
  function Next(s: State): (r: nat)
    requires CanDispatch(s)
  {
    if s.l0 != [] then s.l0[0] else if s.l1 != [] then s.l1[0] else s.l2[0]
  }

  // The chosen process resumes where it left off. If that was inside sleep()
  // it clears its channel before it lets go of the lock; otherwise its channel
  // is clear already.
  function Dispatch(s: State): (r: State)
    requires Wf(s) && CanDispatch(s)
    ensures Wf(r) && |r.procs| == |s.procs|
  {
    var p := Next(s);
    var t := if s.l0 != [] then s.(l0 := s.l0[1..])
             else if s.l1 != [] then s.(l1 := s.l1[1..])
             else s.(l2 := s.l2[1..]);
    t.(cur := Some(p), procs := s.procs[p := s.procs[p].(state := RUNNING, chan := NoChan)])
  }

  // ------------------------------------------------------------------- yield

  function Quantum(level: int): (r: int) { level * 2 + 4 }

  // Charge one tick; at the end of the quantum demote.
  function Charge(b: Pcb): (r: Pcb)
    requires 0 <= b.level <= 2
    ensures 0 <= r.level <= 2
  {
    if b.ticks + 1 == Quantum(b.level) then
      b.(ticks := 0,
         priority := if b.level == 2 && b.priority != 0 then b.priority - 1 else b.priority,
         level := if b.level == 0 then 1 else 2)
    else
      b.(ticks := b.ticks + 1)
  }

  // The head-insertion branch is taken by the lock holder and by the process
  // that last unlocked.
  predicate Favoured(s: State, p: nat) {
    s.lock == Some(p) || s.unlock == Some(p)
  }

  // yield() for the lock holder and for the process that last unlocked.
  function AtHead(s: State, p: nat): (r: State)
    requires Wf(s) && p < |s.procs|
    ensures Wf(r) && |r.procs| == |s.procs|
  {
    s.(procs := s.procs[p := s.procs[p].(state := RUNNABLE, ticks := s.procs[p].ticks + 1)],
       unlock := if s.unlock == Some(p) then None else s.unlock,
       l0 := [p] + s.l0)
  }

  // yield() for any other process, before it joins its queue.
  function Charged(s: State, p: nat): (r: State)
    requires Wf(s) && p < |s.procs|
    ensures Wf(r) && |r.procs| == |s.procs|
  {
    s.(procs := s.procs[p := Charge(s.procs[p].(state := RUNNABLE))])
  }

  // What yield() does up to the context switch.
  function GiveUp(s: State): (r: State)
    requires Wf(s) && s.cur.Some?
    ensures Wf(r) && |r.procs| == |s.procs|
  {
    var p := s.cur.value;
    var t := s.(gticks := s.gticks + 1);
    if Favoured(s, p) then AtHead(t, p) else Enqueue(Charged(t, p), p)
  }

  function Yield(s: State): (r: State)
    requires Wf(s) && s.cur.Some?
    ensures Wf(r) && |r.procs| == |s.procs|
  {
    SwitchBack(GiveUp(s))
  }

  // -------------------------------------------------------- the scheduler lock

  function Lock(s: State): (r: State)
    requires Wf(s) && s.cur.Some?
    ensures Wf(r) && |r.procs| == |s.procs|
  {
    if s.lock == None then s.(lock := s.cur, gticks := 0) else s
  }

  function Unlock(s: State): (r: State)
    requires Wf(s) && s.cur.Some?
    ensures Wf(r) && |r.procs| == |s.procs|
  {
    var p := s.cur.value;
    if s.lock == None then s
    else s.(lock := None, unlock := Some(p), procs := s.procs[p := Reset(s.procs[p])])
  }

  // ------------------------------------------------------------------- fork

  function Fresh(b: Pcb, pid: int): (r: Pcb) {
    Reset(b.(state := EMBRYO, pid := pid))
  }

  // Take the first unused slot; nothing happens when there is none.
  function Alloc(s: State): (r: State)
    requires Wf(s)
    ensures Wf(r) && |r.procs| == |s.procs|
  {
    if s.unused == [] then s
    else
      var p := s.unused[0];
      s.(unused := s.unused[1..], nextpid := s.nextpid + 1,
         procs := s.procs[p := Fresh(s.procs[p], s.nextpid)])
  }

  // fork() runs out of memory and gives the slot back.
  function ForkFail(s: State, e: nat): (r: State)
    requires Wf(s) && e < |s.procs|
    ensures Wf(r) && |r.procs| == |s.procs|
  {
    s.(procs := s.procs[e := s.procs[e].(state := UNUSED)], unused := s.unused + [e])
  }

  function ForkFinish(s: State, e: nat): (r: State)
    requires Wf(s) && e < |s.procs| && s.cur.Some?
    ensures Wf(r) && |r.procs| == |s.procs|
  {
    s.(procs := s.procs[e := s.procs[e].(state := RUNNABLE, parent := s.cur)], l0 := s.l0 + [e])
  }

  // -------------------------------------------------------------- exit, wait

  // Hand the children of me, from slot i on, to init.
  function Reparent(s: State, me: nat, i: nat): (r: State)
    requires Wf(s) && i <= |s.procs|
    ensures Wf(r) && |r.procs| == |s.procs|
    decreases |s.procs| - i
  {
    if i == |s.procs| then s
    else Reparent(ReparentOne(s, me, i), me, i + 1)
  }

  function ReparentOne(s: State, me: nat, i: nat): (r: State)
    requires Wf(s) && i < |s.procs|
    ensures Wf(r) && |r.procs| == |s.procs|
  {
    if s.procs[i].parent != Some(me) then s
    else
      var t := s.(procs := s.procs[i := s.procs[i].(parent := Some(s.init))]);
      if s.procs[i].state == ZOMBIE then Wakeup(t, EntryOf(s.init)) else t
  }

  function ParentChan(b: Pcb): (r: Chan) {
    match b.parent case None => NoChan case Some(q) => EntryOf(q)
  }

  function Exit(s: State): (r: State)
    requires Wf(s) && s.cur.Some?
    ensures Wf(r) && |r.procs| == |s.procs|
  {
    var p := s.cur.value;
    var t := Reparent(Wakeup(s, ParentChan(s.procs[p])), p, 0);
    SwitchBack(t.(lock := None, procs := t.procs[p := t.procs[p].(state := ZOMBIE)]))
  }

  predicate IsChild(s: State, me: nat, i: nat) {
    i < |s.procs| && s.procs[i].parent == Some(me)
  }

  predicate IsDeadChild(s: State, me: nat, i: nat) {
    IsChild(s, me, i) && s.procs[i].state == ZOMBIE
  }

  // The first zombie child at or after slot i, or the size of the table.
  function FirstDead(s: State, me: nat, i: nat): (z: nat)
    requires i <= |s.procs|
    ensures i <= z <= |s.procs|
    ensures z < |s.procs| ==> IsDeadChild(s, me, z)
    ensures forall j :: i <= j < z ==> !IsDeadChild(s, me, j)
    decreases |s.procs| - i
  {
    if i == |s.procs| || IsDeadChild(s, me, i) then i else FirstDead(s, me, i + 1)
  }

  function Reaped(b: Pcb): (r: Pcb) {
    Reset(b.(state := UNUSED, pid := 0, parent := None, killed := false))
  }

  // One scan of the loop in wait().
  function Wait(s: State): (r: State)
    requires Wf(s) && s.cur.Some?
    ensures Wf(r) && |r.procs| == |s.procs|
  {
    var me := s.cur.value;
    var z := FirstDead(s, me, 0);
    if z < |s.procs| then
      s.(procs := s.procs[z := Reaped(s.procs[z])], unused := s.unused + [z])
    else if s.procs[me].killed || forall i | 0 <= i < |s.procs| :: !IsChild(s, me, i) then s
    else SleepOn(s, EntryOf(me))
  }

  // ------------------------------------------------------- kill, setPriority

  // First slot at or after i with this pid, or the size of the table.
  function FirstPid(procs: seq<Pcb>, pid: int, i: nat): (k: nat)
    requires i <= |procs|
    ensures i <= k <= |procs|
    ensures k < |procs| ==> procs[k].pid == pid
    ensures forall j :: i <= j < k ==> procs[j].pid != pid
    decreases |procs| - i
  {
    if i == |procs| || procs[i].pid == pid then i else FirstPid(procs, pid, i + 1)
  }

  function Kill(s: State, pid: int): (r: State)
    requires Wf(s)
    ensures Wf(r) && |r.procs| == |s.procs|
  {
    var k := FirstPid(s.procs, pid, 0);
    if k == |s.procs| then s
    else
      var t := s.(procs := s.procs[k := s.procs[k].(killed := true)]);
      if s.procs[k].state == SLEEPING then Wake(t, k) else t
  }

  // Last slot below i with this pid, if any.
  function LastPid(procs: seq<Pcb>, pid: int, i: nat): (k: Option<nat>)
    requires i <= |procs|
    ensures k.Some? ==> k.value < i && procs[k.value].pid == pid
    ensures forall j :: 0 <= j < i && (k.Some? ==> k.value < j) ==> procs[j].pid != pid
  {
    if i == 0 then None
    else if procs[i - 1].pid == pid then Some(i - 1)
    else LastPid(procs, pid, i - 1)
  }

  function WithPriority(s: State, p: nat, v: int): (r: State)
    requires Wf(s) && p < |s.procs|
    ensures Wf(r)
  {
    s.(procs := s.procs[p := s.procs[p].(priority := v)])
  }

  // Move p to its place in L2.
  function Rearrange(s: State, p: nat): (r: State)
    requires Wf(s) && p < |s.procs|
    ensures Wf(r)
    ensures r == s.(l2 := r.l2)
  {
    WithoutInRange(s.l2, p, |s.procs|);
    s.(l2 := ByPriority(Without(s.l2, p), s.procs, p))
  }

  function SetPriority(s: State, pid: int, v: int): (r: State)
    requires Wf(s)
    ensures Wf(r) && |r.procs| == |s.procs|
  {
    match LastPid(s.procs, pid, |s.procs|)
    case None => s
    case Some(p) =>
      if s.procs[p].state == UNUSED then s
      else if s.procs[p].level == 2 && s.procs[p].state == RUNNABLE then Rearrange(WithPriority(s, p, v), p)
      else WithPriority(s, p, v)
  }

  // The process faults in user space and is marked for death.
  function Fault(s: State): (r: State)
    requires Wf(s) && s.cur.Some?
    ensures Wf(r) && |r.procs| == |s.procs|
  {
    s.(procs := s.procs[s.cur.value := s.procs[s.cur.value].(killed := true)])
  }

  // ------------------------------------------------------------------- steps

  datatype Step =
    | DoDispatch
    | DoYield
    | DoSleep(a: int)
    | DoWait
    | DoExit
    | DoAlloc
    | DoForkFail(e: nat)
    | DoForkFinish(e: nat)
    | DoWakeup(c: Chan)
    | DoKill(pid: int)
    | DoSetPriority(pid: int, v: int)
    | DoLock
    | DoUnlock
    | DoFault

  // One CPU: a process step needs a running process, a dispatch needs that none
  // runs, and only a wakeup may also come from an interrupt.
  predicate Enabled(s: State, st: Step) {
    match st
    case DoDispatch => CanDispatch(s)
    case DoWakeup(_) => true
    case DoExit => s.cur.Some? && s.cur.value != s.init
    case DoForkFail(e) => s.cur.Some? && e < |s.procs| && s.procs[e].state == EMBRYO
    case DoForkFinish(e) => s.cur.Some? && e < |s.procs| && s.procs[e].state == EMBRYO
    case _ => s.cur.Some?
  }

  function Apply(s: State, st: Step): (r: State)
    requires Wf(s) && Enabled(s, st)
    ensures Wf(r) && |r.procs| == |s.procs|
  {
    match st
    case DoDispatch => Dispatch(s)
    case DoYield => Yield(s)
    case DoSleep(a) => SleepOn(s, Address(a))
    case DoWait => Wait(s)
    case DoExit => Exit(s)
    case DoAlloc => Alloc(s)
    case DoForkFail(e) => ForkFail(s, e)
    case DoForkFinish(e) => ForkFinish(s, e)
    case DoWakeup(c) => Wakeup(s, c)
    case DoKill(pid) => Kill(s, pid)
    case DoSetPriority(pid, v) => SetPriority(s, pid, v)
    case DoLock => Lock(s)
    case DoUnlock => Unlock(s)
    case DoFault => Fault(s)
  }

  // -------------------------------------------------------------------- boot

  function BlankPcb(): (r: Pcb) {
    Pcb(UNUSED, 0, None, NoChan, false, 0, 0, 0)
  }

  // After pinit(): every slot is unused.
  function Blank(n: nat): (r: State)
    requires n > 0
    ensures Wf(r) && |r.procs| == n
  {
    State(seq(n, _ => BlankPcb()), [], [], [], [], seq(n, i => i), None, None, 0, 1, None, 0)
  }

  // userinit() turns the first unused slot into the init process.
  function Boot(n: nat): (r: State)
    requires n > 0
    ensures Wf(r) && |r.procs| == n
  {
    var s := Alloc(Blank(n));
    s.(procs := s.procs[0 := s.procs[0].(state := RUNNABLE)], l0 := s.l0 + [0])
  }
}
