// Quanta and priorities: what a process has used up, what that does to its level
// and its priority, and when it keeps to its quantum.
module SchedAccounts {
  import opened Wrappers
  import opened Sched
  import opened SchedInvariant
  import opened SchedSteps
  import opened SchedEffects
  import opened SchedRuns

  // ------------------------------------------------------ the quantum, closed form

  // The account of a process that started fresh and has used y ticks.
  function After(y: nat): (r: Account) {
    if y < 4 then Account(0, y, 3)
    else if y < 10 then Account(1, y - 4, 3)
    else
      var rounds := (y - 10) / 8;
      Account(2, (y - 10) % 8, if rounds < 3 then 3 - rounds else 0)
  }

  lemma ChargeAfter(b: Pcb, y: nat)
    requires 0 <= b.level <= 2 && AccountOf(b) == After(y)
    ensures AccountOf(Charge(b)) == After(y + 1)
  {
    if y >= 10 {
      assert (y - 9) / 8 == (y - 10) / 8 + if (y - 10) % 8 == 7 then 1 else 0;
    }
  }

  // No lock, boost, setPriority on p or death of p takes part in this step.
  predicate Undisturbed(s: State, st: Step, p: nat)
    requires Wf(s)
  {
    && !st.DoLock?
    && !(st.DoYield? && s.gticks == BOOST_TICKS - 1)
    && Renamed(s, st) != Some(p)
    && Enabled(s, st) && p < |s.procs| && Alive(s.procs[p]) && Alive(Apply(s, st).procs[p])
  }

  predicate UndisturbedRun(s: State, tr: seq<Step>, p: nat)
    requires Wf(s)
    decreases |tr|
  {
    tr == [] || (Undisturbed(s, tr[0], p) && UndisturbedRun(Apply(s, tr[0]), tr[1..], p))
  }

  // An undisturbed step charges p exactly when p yields.
  lemma AccountStep(s: State, st: Step, p: nat)
    requires Inv(s) && s.lock == None && s.unlock != Some(p) && Undisturbed(s, st, p)
    ensures AccountOf(Apply(s, st).procs[p])
      == if st.DoYield? && s.cur == Some(p) then AccountOf(Charge(s.procs[p])) else AccountOf(s.procs[p])
  {
    hide Partition, Sorted, LockOk, Family, PidsOk, EmbryosOk, Dispatch, SleepOn, Wait, Exit, Alloc, ForkFail,
      ForkFinish, Wakeup, Kill, SetPriority, Fault;
    if st.DoYield? {
      YieldTable(s, p);
    } else if !st.DoUnlock? {
      AccountKept(s, st, p);
      hide Apply;
    }
  }

  function YieldsOf(s: State, tr: seq<Step>, p: nat): (r: nat)
    requires Wf(s) && CanRun(s, tr)
    decreases |tr|
  {
    if tr == [] then 0
    else (if tr[0].DoYield? && s.cur == Some(p) then 1 else 0) + YieldsOf(Apply(s, tr[0]), tr[1..], p)
  }

  // p has used y ticks since its account was fresh, and no favour awaits it.
  ghost predicate OnTrack(s: State, p: nat, y: nat) {
    Inv(s) && s.lock == None && s.unlock != Some(p) && p < |s.procs| && AccountOf(s.procs[p]) == After(y)
  }

  // The quantum in closed form: 4 ticks in L0, 6 in L1, then 8 a round in L2
  // with the priority value falling by one a round down to zero.
  lemma {:induction false} QuantumClosedForm(s: State, tr: seq<Step>, p: nat, y: nat)
    requires Wf(s) && CanRun(s, tr) && UndisturbedRun(s, tr, p) && OnTrack(s, p, y)
    ensures OnTrack(Exec(s, tr), p, y + YieldsOf(s, tr, p))
    decreases |tr|
  {
    hide OnTrack, Wf, Apply, Undisturbed;
    if tr != [] {
      var st := tr[0];
      var y' := if st.DoYield? && s.cur == Some(p) then y + 1 else y;
      OneStepAfter(s, st, p, y, y');
      QuantumClosedForm(Apply(s, st), tr[1..], p, y');
    }
  }

  lemma OneStepAfter(s: State, st: Step, p: nat, y: nat, y': nat)
    requires Wf(s) && OnTrack(s, p, y) && Undisturbed(s, st, p)
    requires y' == if st.DoYield? && s.cur == Some(p) then y + 1 else y
    ensures Enabled(s, st) && OnTrack(Apply(s, st), p, y')
  {
    StepKeeps(s, st);
    FreeLockStep(s, st);
    AccountStep(s, st, p);
    if y' == y + 1 { ChargeAfter(s.procs[p], y); }
  }

  // ------------------------------------------------------- when quanta are kept

  predicate WithinQuantum(b: Pcb) {
    b.ticks < Quantum(b.level)
  }

  // Every process but the lock holder is inside its quantum.
  ghost predicate QuantaOk(s: State) {
    forall p: nat :: p < |s.procs| && Alive(s.procs[p]) && s.lock != Some(p) ==> WithinQuantum(s.procs[p])
  }

  // The lock holder gives up the lock by blocking after it has used up the
  // quantum of its level.
  ghost predicate Oversleeps(s: State, st: Step)
    requires Wf(s)
  {
    Blocks(s, st) && s.lock == s.cur && s.cur.Some? && !WithinQuantum(s.procs[s.cur.value])
  }

  // Quanta are kept by a step exactly when it is not such a blocking.
  lemma QuantaKeptExactly(s: State, st: Step)
    requires Inv(s) && Enabled(s, st) && QuantaOk(s)
    ensures QuantaOk(Apply(s, st)) <==> !Oversleeps(s, st)
  {
    var t := Apply(s, st);
    if Oversleeps(s, st) {
      OversleepBreaks(s, st);
    } else {
      forall p: nat | p < |t.procs| && Alive(t.procs[p]) && t.lock != Some(p)
        ensures WithinQuantum(t.procs[p])
      {
        QuantumKept(s, st, p);
      }
    }
  }

  lemma OversleepBreaks(s: State, st: Step)
    requires Inv(s) && Enabled(s, st) && Oversleeps(s, st)
    ensures !QuantaOk(Apply(s, st))
  {
    var t := Apply(s, st);
    var p := s.cur.value;
    BlocksExactly(s, st);
    assert Alive(t.procs[p]) && t.lock == None && !WithinQuantum(t.procs[p]);
  }

  lemma QuantumKept(s: State, st: Step, p: nat)
    requires Inv(s) && Enabled(s, st) && QuantaOk(s) && !Oversleeps(s, st)
    requires p < |s.procs| && Alive(Apply(s, st).procs[p]) && Apply(s, st).lock != Some(p)
    ensures WithinQuantum(Apply(s, st).procs[p])
  {
    if st.DoYield? {
      YieldQuantum(s, p);
    } else if !st.DoUnlock? {
      AccountKept(s, st, p);
      if s.lock == Some(p) { HolderBlocks(s, st, p); }
      hide Apply;
    }
  }

  // A holder that stays alive without the lock has unlocked, yielded to a boost
  // or blocked.
  lemma HolderBlocks(s: State, st: Step, p: nat)
    requires Inv(s) && Enabled(s, st) && s.lock == Some(p) && p < |s.procs| && !st.DoYield? && !st.DoUnlock?
    requires Alive(Apply(s, st).procs[p]) && Apply(s, st).lock != Some(p)
    ensures Blocks(s, st) && s.cur == s.lock
  {
    HoldEnds(s, st);
    if st.DoExit? { ExitTable(s); }
  }

  lemma YieldQuantum(s: State, p: nat)
    requires Inv(s) && s.cur.Some? && QuantaOk(s)
    requires p < |s.procs| && Alive(Yield(s).procs[p]) && Yield(s).lock != Some(p)
    ensures WithinQuantum(Yield(s).procs[p])
  {
    YieldTable(s, p);
  }

  function Charges(b: Pcb, y: nat): (r: Pcb)
    requires 0 <= b.level <= 2
    ensures 0 <= r.level <= 2
    decreases y
  {
    if y == 0 then b else Charges(Charge(b), y - 1)
  }

  // What an exceeded quantum costs: the process is never demoted again, however
  // long it runs, until something resets its account.
  lemma {:induction false} NeverDemotedAgain(b: Pcb, y: nat)
    requires 0 <= b.level <= 2 && !WithinQuantum(b)
    ensures Charges(b, y) == b.(ticks := b.ticks + y)
    decreases y
  {
    if y > 0 { NeverDemotedAgain(Charge(b), y - 1); }
  }

  // Without schedulerLock every reachable process stays inside its quantum.
  lemma {:induction false} QuantaKeptWithoutLock(s: State, tr: seq<Step>)
    requires Inv(s) && QuantaOk(s) && s.lock == None && CanRun(s, tr) && NeverLocks(tr)
    ensures QuantaOk(Exec(s, tr))
    decreases |tr|
  {
    if tr != [] {
      StepKeeps(s, tr[0]);
      FreeLockStep(s, tr[0]);
      QuantaKeptExactly(s, tr[0]);
      QuantaKeptWithoutLock(Apply(s, tr[0]), tr[1..]);
    }
  }
}
