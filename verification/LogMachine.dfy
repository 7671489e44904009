// The log as file-system calls see it. Whole runs, stopped anywhere.
module LogMachine {
  import opened Slots
  import opened LogDisk
  import opened Wrappers

  // An operation between begin_op() and end_op(): how often log_write() has
  // recorded a block for it, and which, and the block for which it has passed
  // the tests of log_write() without having recorded it.
  datatype Op = Op(calls: nat, wrote: set<nat>, pending: Option<nat>)

  // The disk, what bread() returns for each block, log.lh.block[..n], the
  // operations counted by log.outstanding, and log.committing.
  datatype State = State(disk: Disk, view: Disk, lh: seq<nat>, open: seq<Op>, committing: bool)

  // log_write() runs its tests before it takes log.lock, so that an operation
  // may be interrupted between LogTest (read, change and test a block) and
  // LogAppend (record the block, and release it). end_op() is two steps: the
  // count under the lock, and the commit that the last operation does after it
  // has released the lock.
  datatype Step = BeginOp | LogTest(o: nat, b: nat, data: Block) | LogAppend(o: nat, b: nat) | EndOp(o: nat) | Commit

  // The two tests of begin_op(). An operation that is not admitted sleeps.
  predicate Admits(g: Layout, s: State) {
    !s.committing && |s.lh| + (|s.open| + 1) * g.maxop <= g.limit
  }

  // The first panic of log_write().
  predicate TooBig(g: Layout, s: State) {
    |s.lh| >= g.limit || |s.lh| >= g.size - 1
  }

  // The blocks on which some operation is between LogTest and LogAppend. Their
  // buffers are locked.
  ghost function InHand(open: seq<Op>): (r: set<nat>)
    ensures forall b :: b in r <==> exists i :: 0 <= i < |open| && open[i].pending == Some(b)
  {
    set i | 0 <= i < |open| && open[i].pending.Some? :: open[i].pending.value
  }

  // What the source lets happen, as long as it does not panic.
  ghost predicate Allowed(g: Layout, s: State, st: Step) {
    match st
    case BeginOp => true
    case LogTest(o, b, data) =>
      && o < |s.open| && s.open[o].pending == None && Home(g, b, |s.disk|) && |data| == g.words
      && b !in InHand(s.open) && !TooBig(g, s)
    case LogAppend(o, b) => o < |s.open| && s.open[o].pending == Some(b)
    case EndOp(o) => o < |s.open| && s.open[o].pending == None
    case Commit => s.committing
  }

  function Absorb(lh: seq<nat>, b: nat): (r: seq<nat>) {
    if b in lh then lh else lh + [b]
  }

  // The same, with a list of blocks that the log on disk still has room for.
  ghost predicate Enabled(g: Layout, s: State, st: Step) {
    Allowed(g, s, st) && (st.LogAppend? ==> |Absorb(s.lh, st.b)| <= g.limit && |Absorb(s.lh, st.b)| < g.size)
  }

  // The blocks in hand are home blocks, and no two operations have the same.
  ghost predicate HandsOk(g: Layout, open: seq<Op>, len: nat) {
    && (forall i :: 0 <= i < |open| && open[i].pending.Some? ==> Home(g, open[i].pending.value, len))
    && forall i, j :: 0 <= i < j < |open| && open[i].pending.Some? ==> open[i].pending != open[j].pending
  }

  ghost predicate Inv(g: Layout, s: State) {
    && Clean(g, s.disk) && Formatted(g, s.view) && |s.view| == |s.disk| && LogFits(g, s.lh, |s.disk|)
    && HandsOk(g, s.open, |s.disk|)
    && (s.committing ==> s.open == [])
    && (s.open == [] && !s.committing ==> s.lh == [])
    && forall b: nat :: b < |s.disk| && b !in s.lh && b !in InHand(s.open) ==> s.view[b] == s.disk[b]
  }

  function Tested(s: State, o: nat, b: nat, data: Block): (r: State)
    requires o < |s.open| && b < |s.view|
  {
    s.(view := s.view[b := data], open := s.open[o := s.open[o].(pending := Some(b))])
  }

  // The operation when log_write() has recorded b for it.
  function After(op: Op, b: nat): (r: Op) {
    Op(op.calls + 1, op.wrote + {b}, None)
  }

  function Appended(s: State, o: nat, b: nat): (r: State)
    requires o < |s.open|
  {
    s.(lh := Absorb(s.lh, b), open := s.open[o := After(s.open[o], b)])
  }

  function Ended(s: State, o: nat): (r: State)
    requires o < |s.open|
  {
    var rest := s.open[..o] + s.open[o + 1..];
    s.(open := rest, committing := rest == [])
  }

  ghost function Writes(g: Layout, s: State, st: Step): (r: seq<Write>)
    requires Inv(g, s)
  {
    if st.Commit? then CommitWrites(g, s.disk, s.view, s.lh) else []
  }

  ghost function CommitDone(g: Layout, s: State): (r: State)
    requires Inv(g, s)
  {
    var d := Replay(s.disk, CommitWrites(g, s.disk, s.view, s.lh));
    State(d, d, [], s.open, false)
  }

  ghost function Apply(g: Layout, s: State, st: Step): (r: State)
    requires Inv(g, s) && Enabled(g, s, st)
    ensures Inv(g, r) && |r.disk| == |s.disk| && r.disk == Replay(s.disk, Writes(g, s, st))
  {
    match st
    case BeginOp => BegunKeeps(g, s); if Admits(g, s) then s.(open := s.open + [Op(0, {}, None)]) else s
    case LogTest(o, b, data) => TestedKeeps(g, s, o, b, data); Tested(s, o, b, data)
    case LogAppend(o, b) => AppendedKeeps(g, s, o, b); Appended(s, o, b)
    case EndOp(o) => EndedKeeps(g, s, o); Ended(s, o)
    case Commit => CommitKeeps(g, s); CommitDone(g, s)
  }

  lemma BegunHands(open: seq<Op>)
    ensures InHand(open + [Op(0, {}, None)]) == InHand(open)
  {
    var r := open + [Op(0, {}, None)];
    forall b | b in InHand(open) ensures b in InHand(r) {
      var i :| 0 <= i < |open| && open[i].pending == Some(b);
      assert r[i].pending == Some(b);
    }
  }

  lemma BegunKeeps(g: Layout, s: State)
    requires Inv(g, s)
    ensures Admits(g, s) ==> Inv(g, s.(open := s.open + [Op(0, {}, None)]))
  {
    BegunHands(s.open);
  }

  lemma TestedHands(open: seq<Op>, o: nat, b: nat)
    requires o < |open| && open[o].pending == None
    ensures InHand(open[o := open[o].(pending := Some(b))]) == InHand(open) + {b}
  {
    var r := open[o := open[o].(pending := Some(b))];
    assert r[o].pending == Some(b);
    forall c | c in InHand(open) ensures c in InHand(r) {
      var i :| 0 <= i < |open| && open[i].pending == Some(c);
      assert r[i].pending == Some(c);
    }
  }

  lemma TestedKeeps(g: Layout, s: State, o: nat, b: nat, data: Block)
    requires Inv(g, s) && Enabled(g, s, LogTest(o, b, data))
    ensures Inv(g, Tested(s, o, b, data))
  {
    TestedHands(s.open, o, b);
    forall i | 0 <= i < |s.open| ensures s.open[i].pending != Some(b) {
      assert s.open[i].pending == Some(b) ==> b in InHand(s.open);
    }
  }

  // No other operation has the block that is recorded.
  lemma AppendedHands(g: Layout, open: seq<Op>, len: nat, o: nat, b: nat)
    requires HandsOk(g, open, len) && o < |open| && open[o].pending == Some(b)
    ensures InHand(open[o := After(open[o], b)]) == InHand(open) - {b}
  {
    var r := open[o := After(open[o], b)];
    forall c | c in InHand(open) && c != b ensures c in InHand(r) {
      var i :| 0 <= i < |open| && open[i].pending == Some(c);
      assert r[i].pending == Some(c);
    }
  }

  lemma AppendedKeeps(g: Layout, s: State, o: nat, b: nat)
    requires Inv(g, s) && Enabled(g, s, LogAppend(o, b))
    ensures Inv(g, Appended(s, o, b))
  {
    var r := Appended(s, o, b);
    AppendMembers(s.lh, b);
    AppendedHands(g, s.open, |s.disk|, o, b);
    assert forall i :: 0 <= i < |r.lh| ==> r.lh[i] in r.lh;
    assert LogFits(g, r.lh, |s.disk|);
  }

  lemma EndedHands(open: seq<Op>, o: nat)
    requires o < |open| && open[o].pending == None
    ensures InHand(open[..o] + open[o + 1..]) == InHand(open)
  {
    var r := open[..o] + open[o + 1..];
    forall c | c in InHand(open) ensures c in InHand(r) {
      var i :| 0 <= i < |open| && open[i].pending == Some(c);
      assert r[if i < o then i else i - 1].pending == Some(c);
    }
    forall c | c in InHand(r) ensures c in InHand(open) {
      var i :| 0 <= i < |r| && r[i].pending == Some(c);
      assert open[if i < o then i else i + 1].pending == Some(c);
    }
  }

  lemma EndedKeeps(g: Layout, s: State, o: nat)
    requires Inv(g, s) && Enabled(g, s, EndOp(o))
    ensures Inv(g, Ended(s, o))
  {
    EndedHands(s.open, o);
    var r := Ended(s, o);
    forall i, j | 0 <= i < j < |r.open| && r.open[i].pending.Some? ensures r.open[i].pending != r.open[j].pending {
      assert r.open[i] == s.open[if i < o then i else i + 1] && r.open[j] == s.open[if j < o then j else j + 1];
    }
  }

  // A completed commit leaves every home block as the operations wrote it.
  lemma CommitKeeps(g: Layout, s: State)
    requires Inv(g, s) && s.committing
    ensures Inv(g, CommitDone(g, s)) && SameHome(g, s.view, CommitDone(g, s).view)
  {
    CommitCompletes(g, s.disk, s.view, s.lh);
    AgreesWithView(g, s);
  }

  lemma AgreesWithView(g: Layout, s: State)
    requires Inv(g, s) && s.committing
    ensures SameHome(g, Committed(g, s.disk, s.view, s.lh), s.view)
  {
  }

  // The panic of end_op() cannot happen.
  lemma NeverEndsCommitting(g: Layout, s: State, o: nat)
    requires Inv(g, s) && Enabled(g, s, EndOp(o))
    ensures !s.committing
  {
  }

  // -------------------------------------------------------------------- runs

  // Runs in which the list of blocks always fits in the log on disk. When those
  // are all runs of the source is LogAdmission.StaysInLogExactly.
  ghost predicate CanRun(g: Layout, s: State, tr: seq<Step>)
    requires Inv(g, s)
    decreases |tr|
  {
    tr == [] || (Enabled(g, s, tr[0]) && CanRun(g, Apply(g, s, tr[0]), tr[1..]))
  }

  ghost function Exec(g: Layout, s: State, tr: seq<Step>): (r: State)
    requires Inv(g, s) && CanRun(g, s, tr)
    ensures Inv(g, r) && |r.disk| == |s.disk|
    decreases |tr|
  {
    if tr == [] then s else Exec(g, Apply(g, s, tr[0]), tr[1..])
  }

  // Every block write of a run, in order; see RunReplays.
  ghost function Trace(g: Layout, s: State, tr: seq<Step>): (ws: seq<Write>)
    requires Inv(g, s) && CanRun(g, s, tr)
    decreases |tr|
  {
    if tr == [] then [] else Writes(g, s, tr[0]) + Trace(g, Apply(g, s, tr[0]), tr[1..])
  }

  lemma {:induction false} RunReplays(g: Layout, s: State, tr: seq<Step>)
    requires Inv(g, s) && CanRun(g, s, tr)
    ensures Exec(g, s, tr).disk == Replay(s.disk, Trace(g, s, tr))
    decreases |tr|
  {
    if tr != [] {
      var t := Apply(g, s, tr[0]);
      RunReplays(g, t, tr[1..]);
      ReplayConcat(s.disk, Writes(g, s, tr[0]), Trace(g, t, tr[1..]));
    }
  }

  // What the operations of a run make of the blocks, were there no log, no
  // cache and no crash.
  function Contents(v: Disk, tr: seq<Step>): (r: Disk)
    ensures |r| == |v|
    decreases |tr|
  {
    if tr == [] then v
    else Contents(if tr[0].LogTest? && tr[0].b < |v| then v[tr[0].b := tr[0].data] else v, tr[1..])
  }

  ghost predicate Quiet(g: Layout, s: State) {
    Inv(g, s) && s.open == [] && !s.committing
  }

  lemma {:induction false} ContentsHome(g: Layout, v: Disk, w: Disk, tr: seq<Step>)
    requires SameHome(g, v, w)
    ensures SameHome(g, Contents(v, tr), Contents(w, tr))
    decreases |tr|
  {
    if tr != [] {
      var st := tr[0];
      if st.LogTest? && st.b < |v| {
        ContentsHome(g, v[st.b := st.data], w[st.b := st.data], tr[1..]);
      } else {
        ContentsHome(g, v, w, tr[1..]);
      }
    }
  }

  // Reads see exactly what was written, across commits.
  lemma {:induction false} ViewIsContents(g: Layout, s: State, tr: seq<Step>)
    requires Inv(g, s) && CanRun(g, s, tr)
    ensures SameHome(g, Exec(g, s, tr).view, Contents(s.view, tr))
    decreases |tr|
  {
    if tr != [] {
      var t := Apply(g, s, tr[0]);
      ViewIsContents(g, t, tr[1..]);
      if tr[0].Commit? {
        CommitKeeps(g, s);
        ContentsHome(g, s.view, t.view, tr[1..]);
      }
    }
  }

  // Home blocks do not change on disk before the commit.
  lemma {:induction false} NothingBeforeCommit(g: Layout, s: State, tr: seq<Step>)
    requires Inv(g, s) && CanRun(g, s, tr) && forall i :: 0 <= i < |tr| ==> !tr[i].Commit?
    ensures Exec(g, s, tr).disk == s.disk && Trace(g, s, tr) == []
    decreases |tr|
  {
    if tr != [] {
      assert Replay(s.disk, []) == s.disk;
      NothingBeforeCommit(g, Apply(g, s, tr[0]), tr[1..]);
    }
  }

  // ----------------------------------------------------------------- crashes

  // How many transactions have their header on disk.
  function Headers(g: Layout, ws: seq<Write>): (r: nat) {
    if ws == [] then 0 else Headers(g, ws[..|ws| - 1]) + if IsHeader(g, ws[|ws| - 1]) then 1 else 0
  }

  lemma {:induction false} HeadersConcat(g: Layout, a: seq<Write>, c: seq<Write>)
    ensures Headers(g, a + c) == Headers(g, a) + Headers(g, c)
  {
    if c == [] {
      assert a + c == a;
    } else {
      HeadersConcat(g, a, c[..|c| - 1]);
      assert (a + c)[..|a + c| - 1] == a + c[..|c| - 1];
    }
  }

  lemma {:induction false} NoHeaders(g: Layout, ws: seq<Write>)
    requires !HeaderReached(g, ws)
    ensures Headers(g, ws) == 0
  {
    if ws != [] {
      NoHeaders(g, ws[..|ws| - 1]);
    }
  }

  // Recovery writes no header with a positive count.
  lemma RecoveryHasNoHeader(g: Layout, d: Disk, j: nat)
    requires Formatted(g, d) && HeadOk(g, d) && j <= |RecoverWrites(g, d)|
    ensures Headers(g, RecoverWrites(g, d)[..j]) == 0
  {
    InstallsAvoid(g, d, g.start);
    NoHeaders(g, RecoverWrites(g, d)[..j]);
  }

  lemma PreludeHeaders(g: Layout, d: Disk, view: Disk, bs: seq<nat>)
    requires Formatted(g, d) && LogFits(g, bs, |d|) && Formatted(g, view) && |view| == |d| && bs != []
    ensures Headers(g, Prelude(g, d, view, bs)) == 1
  {
    var ws := Prelude(g, d, view, bs);
    assert ws[..|ws| - 1] == LogWrites(g, view, bs);
    NoHeaders(g, LogWrites(g, view, bs));
  }

  lemma CommitHeaders(g: Layout, d: Disk, view: Disk, bs: seq<nat>, k: nat)
    requires Clean(g, d) && LogFits(g, bs, |d|) && Formatted(g, view) && |view| == |d|
    requires k <= |CommitWrites(g, d, view, bs)|
    ensures Headers(g, CommitWrites(g, d, view, bs)[..k]) == if k > |bs| then 1 else 0
  {
    var ws := CommitWrites(g, d, view, bs)[..k];
    if k <= |bs| {
      CommitStopped(g, d, view, bs, k);
      NoHeaders(g, ws);
    } else {
      LoggedHead(g, d, view, bs);
      var m := Logged(g, d, view, bs);
      var j := k - |bs| - 1;
      assert ws == Prelude(g, d, view, bs) + RecoverWrites(g, m)[..j];
      PreludeHeaders(g, d, view, bs);
      RecoveryHasNoHeader(g, m, j);
      HeadersConcat(g, Prelude(g, d, view, bs), RecoverWrites(g, m)[..j]);
    }
  }

  lemma {:induction false} CanRunPrefix(g: Layout, s: State, tr: seq<Step>, p: nat)
    requires Inv(g, s) && CanRun(g, s, tr) && p <= |tr|
    ensures CanRun(g, s, tr[..p])
    decreases p
  {
    if p > 0 {
      CanRunPrefix(g, Apply(g, s, tr[0]), tr[1..], p - 1);
      assert tr[..p][1..] == tr[1..][..p - 1];
    }
  }

  // What the disk recovers to when the first p steps of a run survive.
  ghost function Survives(s: State, tr: seq<Step>, p: nat): (r: Disk)
    requires p <= |tr|
  {
    if p == 0 then s.disk else Contents(s.view, tr[..p])
  }

  ghost predicate SurvivesTo(g: Layout, s: State, tr: seq<Step>, p: nat, ws: seq<Write>)
    requires Inv(g, s) && CanRun(g, s, tr)
  {
    && p <= |tr| && (p > 0 ==> tr[p - 1].Commit?) && CanRun(g, s, tr[..p])
    && Headers(g, Trace(g, s, tr[..p])) == Headers(g, ws)
    && RecoversTo(g, Replay(s.disk, ws), Survives(s, tr, p))
  }

  // One step more in front.
  lemma SurvivesLonger(g: Layout, s: State, tr: seq<Step>, p: nat, ws: seq<Write>)
    requires Inv(g, s) && CanRun(g, s, tr) && tr != []
    requires var t := Apply(g, s, tr[0]); SurvivesTo(g, t, tr[1..], p, ws)
    requires p > 0 || tr[0].Commit?
    ensures SurvivesTo(g, s, tr, p + 1, Writes(g, s, tr[0]) + ws)
  {
    hide Inv, Apply, Enabled, Writes, CanRun, Contents, Headers, HeadOk, Replay, Trace, Survives;
    RunStep(g, s, tr);
    var t := Apply(g, s, tr[0]);
    var w := Writes(g, s, tr[0]);
    var head := tr[..p + 1];
    CanRunPrefix(g, s, tr, p + 1);
    assert head[0] == tr[0] && head[1..] == tr[1..][..p];
    RunStep(g, s, head);
    HeadersConcat(g, w, Trace(g, t, head[1..]));
    HeadersConcat(g, w, ws);
    ReplayConcat(s.disk, w, ws);
    assert t.disk == Replay(s.disk, w);
    SurvivesSame(g, s, tr, p);
  }

  lemma SurvivesSame(g: Layout, s: State, tr: seq<Step>, p: nat)
    requires Inv(g, s) && CanRun(g, s, tr) && tr != [] && p < |tr| && (p > 0 || tr[0].Commit?)
    ensures SameHome(g, Survives(Apply(g, s, tr[0]), tr[1..], p), Survives(s, tr, p + 1))
  {
    var t := Apply(g, s, tr[0]);
    var head := tr[..p + 1];
    assert head[0] == tr[0] && head[1..] == tr[1..][..p];
    if tr[0].Commit? {
      CommitKeeps(g, s);
      hide Inv, Contents, CanRun;
      ContentsHome(g, t.view, s.view, head[1..]);
      CommitContents(s.view, head);
      CommitView(g, s);
      NoneKept(t.view, tr[1..]);
    }
  }

  lemma CommitContents(v: Disk, tr: seq<Step>)
    requires tr != [] && tr[0].Commit?
    ensures Contents(v, tr) == Contents(v, tr[1..])
  {
  }

  lemma NoneKept(v: Disk, tr: seq<Step>)
    ensures Contents(v, tr[..0]) == v
  {
  }

  // After a commit readers see the disk.
  lemma CommitView(g: Layout, s: State)
    requires Inv(g, s) && s.committing
    ensures CommitDone(g, s).view == CommitDone(g, s).disk
  {
  }

  lemma NothingSurvives(g: Layout, s: State, tr: seq<Step>, ws: seq<Write>)
    requires Inv(g, s) && CanRun(g, s, tr)
    requires Headers(g, ws) == 0 && RecoversTo(g, Replay(s.disk, ws), s.disk)
    ensures SurvivesTo(g, s, tr, 0, ws)
  {
    assert tr[..0] == [];
  }

  lemma SurvivesNothing(g: Layout, s: State, tr: seq<Step>, ws: seq<Write>)
    requires Inv(g, s) && CanRun(g, s, tr) && tr != [] && !tr[0].Commit?
    requires SurvivesTo(g, Apply(g, s, tr[0]), tr[1..], 0, ws)
    ensures SurvivesTo(g, s, tr, 0, Writes(g, s, tr[0]) + ws)
  {
    assert Replay(s.disk, []) == s.disk;
    assert Apply(g, s, tr[0]).disk == s.disk;
    assert [] + ws == ws;
    assert tr[1..][..0] == [];
    NothingSurvives(g, s, tr, ws);
  }

  lemma NoSteps(g: Layout, s: State, tr: seq<Step>, k: nat)
    requires Inv(g, s) && CanRun(g, s, tr) && tr == [] && k <= |Trace(g, s, tr)|
    ensures SurvivesTo(g, s, tr, 0, Trace(g, s, tr)[..k])
  {
    QuietRecovers(g, s);
    assert Replay(s.disk, []) == s.disk;
    NothingSurvives(g, s, tr, []);
  }

  lemma QuietRecovers(g: Layout, s: State)
    requires Inv(g, s)
    ensures RecoversTo(g, s.disk, s.disk)
  {
    RecoverAgain(g, s.disk);
  }

  lemma CommitSurvives(g: Layout, s: State, tr: seq<Step>, ws: seq<Write>)
    requires Inv(g, s) && CanRun(g, s, tr) && tr != [] && tr[0].Commit? && s.lh != []
    requires Headers(g, ws) == 1 && RecoversTo(g, Replay(s.disk, ws), Committed(g, s.disk, s.view, s.lh))
    ensures SurvivesTo(g, s, tr, 1, ws)
  {
    AgreesWithView(g, s);
    CanRunPrefix(g, s, tr, 1);
    var one := tr[..1];
    assert one[1..] == [];
    assert Contents(s.view, one) == s.view;
    var w := CommitWrites(g, s.disk, s.view, s.lh);
    assert Trace(g, s, one) == w + [] == w;
    CommitHeaders(g, s.disk, s.view, s.lh, |w|);
    assert w[..|w|] == w;
  }

  lemma StoppedInCommit(g: Layout, s: State, tr: seq<Step>, k: nat) returns (p: nat)
    requires Inv(g, s) && CanRun(g, s, tr) && tr != [] && tr[0].Commit? && s.lh != []
    requires k <= |Writes(g, s, tr[0])|
    ensures SurvivesTo(g, s, tr, p, Writes(g, s, tr[0])[..k])
  {
    var ws := CommitWrites(g, s.disk, s.view, s.lh)[..k];
    CommitStopped(g, s.disk, s.view, s.lh, k);
    CommitHeaders(g, s.disk, s.view, s.lh, k);
    if k > |s.lh| {
      p := 1;
      CommitSurvives(g, s, tr, ws);
    } else {
      p := 0;
      NothingSurvives(g, s, tr, ws);
    }
  }

  // A machine may stop at any block write of a run. What a recovery then finds
  // is what the operations of some first part of the run have written. That
  // part ends with a commit, and has every transaction whose header got out.
  lemma {:induction false} RunStopped(g: Layout, s: State, tr: seq<Step>, k: nat) returns (p: nat)
    requires Inv(g, s) && CanRun(g, s, tr) && k <= |Trace(g, s, tr)|
    ensures SurvivesTo(g, s, tr, p, Trace(g, s, tr)[..k])
    decreases |tr|
  {
    hide *;
    if tr == [] {
      p := 0;
      NoSteps(g, s, tr, k);
    } else {
      RunStep(g, s, tr);
      var w := Writes(g, s, tr[0]);
      var t := Apply(g, s, tr[0]);
      var rest := Trace(g, t, tr[1..]);
      if tr[0].Commit? && s.lh != [] && k <= |w| {
        p := StoppedInCommit(g, s, tr, k);
        TakeFirst(w, rest, k);
      } else {
        var q := RunStopped(g, t, tr[1..], k - |w|);
        TakeConcat(w, rest, k - |w|);
        if q > 0 || tr[0].Commit? {
          p := q + 1;
          SurvivesLonger(g, s, tr, q, rest[..k - |w|]);
        } else {
          p := 0;
          SurvivesNothing(g, s, tr, rest[..k - |w|]);
        }
      }
    }
  }

  lemma RunStep(g: Layout, s: State, tr: seq<Step>)
    requires Inv(g, s) && CanRun(g, s, tr) && tr != []
    ensures Enabled(g, s, tr[0]) && CanRun(g, Apply(g, s, tr[0]), tr[1..])
    ensures Trace(g, s, tr) == Writes(g, s, tr[0]) + Trace(g, Apply(g, s, tr[0]), tr[1..])
    ensures Exec(g, s, tr) == Exec(g, Apply(g, s, tr[0]), tr[1..])
    ensures Writes(g, s, tr[0]) != [] ==> tr[0].Commit? && s.lh != []
  {
    hide Inv, Apply, Enabled;
  }

  lemma {:induction false} EndsQuiet(g: Layout, s: State, tr: seq<Step>)
    requires Inv(g, s) && CanRun(g, s, tr) && tr != [] && tr[|tr| - 1].Commit?
    ensures Quiet(g, Exec(g, s, tr))
    decreases |tr|
  {
    if |tr| > 1 {
      EndsQuiet(g, Apply(g, s, tr[0]), tr[1..]);
    }
  }

  // The kernel after recovery: an empty log over the disk.
  function Booted(d: Disk): (r: State) {
    State(d, d, [], [], false)
  }

  // One life of the machine, from the end of a recovery to the end of the next:
  // a run, cut off at its k-th block write, and recoveries that are cut off as
  // ks says before one completes.
  datatype Life = Life(tr: seq<Step>, k: nat, ks: seq<nat>)

  ghost predicate Possible(g: Layout, d: Disk, l: Life) {
    Clean(g, d) && CanRun(g, Booted(d), l.tr) && l.k <= |Trace(g, Booted(d), l.tr)|
  }

  // The block writes of a life before its first crash.
  ghost function Done(g: Layout, d: Disk, l: Life): (r: seq<Write>)
    requires Possible(g, d, l)
  {
    Trace(g, Booted(d), l.tr)[..l.k]
  }

  lemma StoppedFormatted(g: Layout, d: Disk, l: Life)
    requires Possible(g, d, l)
    ensures var e := Replay(d, Done(g, d, l)); Formatted(g, e) && HeadOk(g, e)
  {
    var p := RunStopped(g, Booted(d), l.tr, l.k);
  }

  // The disk at the end of a life.
  ghost function Rebooted(g: Layout, d: Disk, l: Life): (r: Disk)
    requires Possible(g, d, l)
  {
    StoppedFormatted(g, d, l);
    Recovered(g, Restarts(g, Replay(d, Done(g, d, l)), l.ks))
  }

  // The first p steps of the run of a life are possible, end with no operation
  // under way, and include every transaction whose header was written.
  ghost predicate Whole(g: Layout, d: Disk, l: Life, p: nat)
    requires Possible(g, d, l)
  {
    && p <= |l.tr| && CanRun(g, Booted(d), l.tr[..p]) && Quiet(g, Exec(g, Booted(d), l.tr[..p]))
    && Headers(g, Trace(g, Booted(d), l.tr[..p])) == Headers(g, Done(g, d, l))
  }

  // All or nothing, for whole runs: the disk holds what the first p steps have
  // written, no operation is under way after these p steps, and they include
  // every commit whose header was written.
  lemma RunAtomic(g: Layout, d: Disk, l: Life) returns (p: nat)
    requires Possible(g, d, l)
    ensures Whole(g, d, l, p) && Clean(g, Rebooted(g, d, l))
    ensures SameHome(g, Rebooted(g, d, l), Contents(d, l.tr[..p]))
  {
    var s := Booted(d);
    p := RunStopped(g, s, l.tr, l.k);
    QuietPart(g, d, l.tr, p);
    hide Inv, CanRun, Headers, Replay, Contents, Trace, Formatted, HeadOk, Clean, Restarts, Survives, Exec;
    RecoveredClean(g, Restarts(g, Replay(d, Done(g, d, l)), l.ks));
  }

  lemma QuietPart(g: Layout, d: Disk, tr: seq<Step>, p: nat)
    requires Clean(g, d) && p <= |tr| && CanRun(g, Booted(d), tr[..p]) && (p > 0 ==> tr[p - 1].Commit?)
    ensures Quiet(g, Exec(g, Booted(d), tr[..p])) && Survives(Booted(d), tr, p) == Contents(d, tr[..p])
  {
    if p > 0 {
      EndsQuiet(g, Booted(d), tr[..p]);
    }
  }

  ghost predicate CanLive(g: Layout, d: Disk, lives: seq<Life>)
    decreases |lives|
  {
    Clean(g, d) && (lives == [] || (Possible(g, d, lives[0]) && CanLive(g, Rebooted(g, d, lives[0]), lives[1..])))
  }

  ghost function AfterLives(g: Layout, d: Disk, lives: seq<Life>): (r: Disk)
    requires CanLive(g, d, lives)
    decreases |lives|
  {
    if lives == [] then d else AfterLives(g, Rebooted(g, d, lives[0]), lives[1..])
  }

  // The first ps[i] steps of the i-th life, one life after the other.
  function Kept(lives: seq<Life>, ps: seq<nat>): (r: seq<Step>)
    requires |ps| == |lives| && forall i :: 0 <= i < |ps| ==> ps[i] <= |lives[i].tr|
  {
    if lives == [] then [] else lives[0].tr[..ps[0]] + Kept(lives[1..], ps[1..])
  }

  // Every kept part is whole: it ends with no operation under way and includes
  // every transaction whose header was written in that life.
  ghost predicate AllWhole(g: Layout, d: Disk, lives: seq<Life>, ps: seq<nat>)
    requires |ps| == |lives|
    decreases |lives|
  {
    lives == [] ||
    (Possible(g, d, lives[0]) && Whole(g, d, lives[0], ps[0]) &&
     AllWhole(g, Rebooted(g, d, lives[0]), lives[1..], ps[1..]))
  }

  lemma {:induction false} ContentsConcat(v: Disk, a: seq<Step>, c: seq<Step>)
    ensures Contents(v, a + c) == Contents(Contents(v, a), c)
    decreases |a|
  {
    if a == [] {
      assert a + c == c;
    } else {
      var st := a[0];
      assert (a + c)[1..] == a[1..] + c;
      ContentsConcat(if st.LogTest? && st.b < |v| then v[st.b := st.data] else v, a[1..], c);
    }
  }

  // All or nothing over any number of crashes: the home blocks are what the kept
  // parts of the lives have written, and every kept part is whole.
  lemma {:induction false} LivesAtomic(g: Layout, d: Disk, lives: seq<Life>) returns (ps: seq<nat>)
    requires CanLive(g, d, lives)
    ensures |ps| == |lives| && forall i :: 0 <= i < |ps| ==> ps[i] <= |lives[i].tr|
    ensures AllWhole(g, d, lives, ps)
    ensures SameHome(g, AfterLives(g, d, lives), Contents(d, Kept(lives, ps)))
    decreases |lives|
  {
    hide *;
    if lives == [] {
      ps := [];
      NoLives(g, d, lives);
    } else {
      var l := lives[0];
      FirstLife(g, d, lives);
      var p := RunAtomic(g, d, l);
      WholeIsPart(g, d, l, p);
      var e := Rebooted(g, d, l);
      var rest := LivesAtomic(g, e, lives[1..]);
      ps := [p] + rest;
      var later := Kept(lives[1..], rest);
      KeptFirst(lives, p, rest);
      WholeFirst(g, d, lives, p, rest);
      ContentsConcat(d, l.tr[..p], later);
      ContentsHome(g, e, Contents(d, l.tr[..p]), later);
      SameHomeTransitive(g, AfterLives(g, d, lives), Contents(e, later), Contents(Contents(d, l.tr[..p]), later));
    }
  }

  lemma NoLives(g: Layout, d: Disk, lives: seq<Life>)
    requires CanLive(g, d, lives) && lives == []
    ensures AllWhole(g, d, lives, []) && SameHome(g, AfterLives(g, d, lives), Contents(d, Kept(lives, [])))
  {
  }

  lemma WholeFirst(g: Layout, d: Disk, lives: seq<Life>, p: nat, rest: seq<nat>)
    requires lives != [] && |rest| == |lives| - 1 && Possible(g, d, lives[0])
    requires Whole(g, d, lives[0], p) && AllWhole(g, Rebooted(g, d, lives[0]), lives[1..], rest)
    ensures AllWhole(g, d, lives, [p] + rest)
  {
    hide Possible, Whole, Rebooted;
    assert ([p] + rest)[1..] == rest;
  }

  lemma WholeIsPart(g: Layout, d: Disk, l: Life, p: nat)
    requires Possible(g, d, l) && Whole(g, d, l, p)
    ensures p <= |l.tr|
  {
  }

  lemma FirstLife(g: Layout, d: Disk, lives: seq<Life>)
    requires CanLive(g, d, lives) && lives != []
    ensures Possible(g, d, lives[0]) && CanLive(g, Rebooted(g, d, lives[0]), lives[1..])
    ensures AfterLives(g, d, lives) == AfterLives(g, Rebooted(g, d, lives[0]), lives[1..])
  {
    hide Possible, Clean, Rebooted;
  }

  lemma KeptFirst(lives: seq<Life>, p: nat, rest: seq<nat>)
    requires lives != [] && |rest| == |lives| - 1 && p <= |lives[0].tr|
    requires forall i :: 0 <= i < |rest| ==> rest[i] <= |lives[i + 1].tr|
    ensures forall i :: 0 <= i < |rest| ==> rest[i] <= |lives[1..][i].tr|
    ensures Kept(lives, [p] + rest) == lives[0].tr[..p] + Kept(lives[1..], rest)
  {
    assert ([p] + rest)[1..] == rest;
  }

  lemma SameHomeTransitive(g: Layout, a: Disk, b: Disk, c: Disk)
    requires SameHome(g, a, b) && SameHome(g, b, c)
    ensures SameHome(g, a, c)
  {
  }
}
