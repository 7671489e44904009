// The killed flag belongs to a slot, not to a process: only wait() clears it.
module SchedKilled {
  import opened Wrappers
  import opened Sched
  import opened SchedInvariant
  import opened SchedSteps
  import opened SchedTable
  import opened SchedRuns

  // What each step does to the flag of a slot. In particular allocproc() and
  // fork() leave it as it is.
  lemma FlagStep(s: State, st: Step, k: nat)
    requires Inv(s) && Enabled(s, st) && k < |s.procs|
    ensures Apply(s, st).procs[k].killed <==> Marks(s, st, k) || (s.procs[k].killed && !Reaps(s, st, k))
  {
    hide Partition, Sorted, CpuOk, LockOk, Family, PidsOk, EmbryosOk, Apply, Marks, Reaps;
    EntryStep(s, st, k);
  }

  predicate NeverReaped(s: State, tr: seq<Step>, k: nat)
    requires Wf(s) && CanRun(s, tr)
    decreases |tr|
  {
    tr == [] || (!Reaps(s, tr[0], k) && NeverReaped(Apply(s, tr[0]), tr[1..], k))
  }

  lemma {:induction false} FlagStays(s: State, tr: seq<Step>, k: nat)
    requires Inv(s) && CanRun(s, tr) && k < |s.procs| && s.procs[k].killed && NeverReaped(s, tr, k)
    ensures Exec(s, tr).procs[k].killed
    decreases |tr|
  {
    if tr != [] {
      StepKeeps(s, tr[0]);
      FlagStep(s, tr[0], k);
      hide Inv, Apply, Enabled, Reaps;
      FlagStays(Apply(s, tr[0]), tr[1..], k);
    }
  }

  // An unused slot that matches the number, as all do that have been given back
  // by wait() or never used if the number is 0, is marked like any other. The
  // next process in that slot has the mark from its birth until it is reaped.
  lemma BornKilled(s: State, pid: int, tr: seq<Step>, k: nat)
    requires Inv(s) && s.cur.Some? && k < |s.procs| && FirstPid(s.procs, pid, 0) == k
    requires CanRun(Kill(s, pid), tr) && NeverReaped(Kill(s, pid), tr, k)
    ensures Exec(Kill(s, pid), tr).procs[k].killed
  {
    StepKeeps(s, DoKill(pid));
    FlagStep(s, DoKill(pid), k);
    FlagStays(Kill(s, pid), tr, k);
  }

  // From boot: init kills 0, forks, and its child is born killed.
  lemma KillZero(n: nat)
    requires n >= 2
    ensures var tr := [DoDispatch, DoKill(0), DoAlloc, DoForkFinish(1)];
      CanRun(Boot(n), tr) && Exec(Boot(n), tr).procs[1].state == RUNNABLE && Exec(Boot(n), tr).procs[1].killed
  {
    var s0 := Boot(n);
    var s1 := Dispatch(s0);
    assert FirstPid(s1.procs, 0, 0) == 1;
    var s2 := Kill(s1, 0);
    var s3 := Alloc(s2);
    var tr := [DoDispatch, DoKill(0), DoAlloc, DoForkFinish(1)];
    assert tr[1..] == [DoKill(0), DoAlloc, DoForkFinish(1)];
    assert tr[1..][1..] == [DoAlloc, DoForkFinish(1)];
    assert tr[1..][1..][1..] == [DoForkFinish(1)];
    assert tr[1..][1..][1..][1..] == [];
    assert s3.procs[1].state == EMBRYO && s3.procs[1].killed;
  }
}
