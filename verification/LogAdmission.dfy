// What begin_op() promises by the room it asks for, and what it does not.
module LogAdmission {
  import opened Slots
  import opened Wrappers
  import opened LogDisk
  import opened LogMachine

  function Sum(xs: seq<int>): (r: int) {
    if xs == [] then 0 else xs[0] + Sum(xs[1..])
  }

  lemma {:induction false} SumUpdate(xs: seq<int>, i: nat, x: int)
    requires i < |xs|
    ensures Sum(xs[i := x]) == Sum(xs) - xs[i] + x
  {
    if i > 0 {
      SumUpdate(xs[1..], i - 1, x);
      assert xs[i := x][1..] == xs[1..][i - 1 := x];
    } else {
      assert xs[i := x][1..] == xs[1..];
    }
  }

  lemma {:induction false} SumRemove(xs: seq<int>, i: nat)
    requires i < |xs|
    ensures Sum(xs[..i] + xs[i + 1..]) == Sum(xs) - xs[i]
  {
    var r := xs[..i] + xs[i + 1..];
    if i > 0 {
      SumRemove(xs[1..], i - 1);
      assert r[1..] == xs[1..][..i - 1] + xs[1..][i..];
    } else {
      assert r == xs[1..];
    }
  }

  lemma {:induction false} SumAppend(xs: seq<int>, x: int)
    ensures Sum(xs + [x]) == Sum(xs) + x
  {
    if xs == [] {
      assert (xs + [x])[1..] == [];
    } else {
      SumAppend(xs[1..], x);
      assert (xs + [x])[1..] == xs[1..] + [x];
    }
  }

  lemma {:induction false} SumAtMost(xs: seq<int>, m: int)
    requires forall i :: 0 <= i < |xs| ==> xs[i] <= m
    ensures Sum(xs) <= |xs| * m
  {
    if xs != [] {
      SumAtMost(xs[1..], m);
    }
  }

  lemma {:induction false} SumAtLeast(xs: seq<int>, k: nat)
    requires k < |xs| && forall i :: 0 <= i < |xs| ==> xs[i] >= 0
    ensures Sum(xs) >= xs[k]
  {
    if xs != [] {
      if k > 0 {
        SumAtLeast(xs[1..], k - 1);
      } else if |xs| > 1 {
        SumAtLeast(xs[1..], 0);
      }
    }
  }

  // Two ways to hold an operation to MAXOPBLOCKS: by the distinct blocks it
  // writes, or by its calls of log_write().
  datatype Measure = Blocks | Calls

  function Used(m: Measure, op: Op): (r: nat) {
    if m == Blocks then |op.wrote| else op.calls
  }

  function Left(m: Measure, g: Layout, open: seq<Op>): (r: seq<int>)
    ensures |r| == |open|
  {
    seq(|open|, i requires 0 <= i < |open| => g.maxop - Used(m, open[i]))
  }

  // The step keeps its operation within MAXOPBLOCKS.
  predicate Frugal(m: Measure, g: Layout, s: State, st: Step) {
    st.LogTest? && st.o < |s.open| ==> Used(m, After(s.open[st.o], st.b)) <= g.maxop
  }

  ghost predicate FrugalRun(m: Measure, g: Layout, s: State, tr: seq<Step>)
    requires Inv(g, s) && CanRun(g, s, tr)
    decreases |tr|
  {
    tr == [] || (Frugal(m, g, s, tr[0]) && FrugalRun(m, g, Apply(g, s, tr[0]), tr[1..]))
  }

  // Every block recorded for an operation is in the log, and there is room for
  // whatever the open operations may still write.
  ghost predicate Room(m: Measure, g: Layout, s: State) {
    && (forall i :: 0 <= i < |s.open| ==> Thrifty(m, g, s.open[i]))
    && (forall i, b: nat :: 0 <= i < |s.open| && b in s.open[i].wrote ==> b in s.lh)
    && |s.lh| + Sum(Left(m, g, s.open)) <= g.limit
  }

  // The operation is within MAXOPBLOCKS, with the block it has in hand.
  predicate Thrifty(m: Measure, g: Layout, op: Op) {
    Used(m, op) <= g.maxop && (op.pending.Some? ==> Used(m, After(op, op.pending.value)) <= g.maxop)
  }

  lemma BeginKeepsRoom(m: Measure, g: Layout, s: State)
    requires Inv(g, s) && Room(m, g, s)
    ensures Room(m, g, Apply(g, s, BeginOp))
  {
    hide Inv, Sum, Home;
    if Admits(g, s) {
      var r := Apply(g, s, BeginOp);
      var l := Left(m, g, s.open);
      assert Left(m, g, r.open) == l + [g.maxop as int];
      SumAppend(l, g.maxop);
      SumAtMost(l, g.maxop);
      AdmittedFits(|s.lh|, |s.open|, g.maxop, g.limit, Sum(l));
    }
  }

  lemma AdmittedFits(n: nat, open: nat, maxop: nat, limit: nat, left: int)
    requires n + (open + 1) * maxop <= limit && left <= open * maxop
    ensures n + left + maxop <= limit
  {
  }

  lemma TestKeepsRoom(m: Measure, g: Layout, s: State, o: nat, b: nat, data: Block)
    requires Inv(g, s) && Enabled(g, s, LogTest(o, b, data)) && Frugal(m, g, s, LogTest(o, b, data)) && Room(m, g, s)
    ensures Room(m, g, Apply(g, s, LogTest(o, b, data)))
  {
    hide Inv, Enabled;
    TestEnabled(g, s, o, b, data);
    assert Left(m, g, Tested(s, o, b, data).open) == Left(m, g, s.open);
  }

  lemma TestEnabled(g: Layout, s: State, o: nat, b: nat, data: Block)
    requires Inv(g, s) && Enabled(g, s, LogTest(o, b, data))
    ensures o < |s.open| && b < |s.disk| == |s.view| && s.open[o].pending == None && b !in InHand(s.open)
  {
  }

  lemma AppendKeepsRoom(m: Measure, g: Layout, s: State, o: nat, b: nat)
    requires Inv(g, s) && Enabled(g, s, LogAppend(o, b)) && Room(m, g, s)
    ensures Room(m, g, Apply(g, s, LogAppend(o, b)))
  {
    AppendEnabled(g, s, o, b);
    hide Inv, Apply, Enabled, Room, Absorb;
    AppendedRoom(m, g, s, o, b);
  }

  lemma AppendEnabled(g: Layout, s: State, o: nat, b: nat)
    requires Inv(g, s) && Enabled(g, s, LogAppend(o, b))
    ensures o < |s.open| && s.open[o].pending == Some(b)
    ensures Apply(g, s, LogAppend(o, b)) == Appended(s, o, b)
  {
  }

  lemma AppendedRoom(m: Measure, g: Layout, s: State, o: nat, b: nat)
    requires o < |s.open| && s.open[o].pending == Some(b) && Room(m, g, s)
    ensures Room(m, g, Appended(s, o, b))
  {
    var op := s.open[o];
    var np := After(op, b);
    var r := Appended(s, o, b);
    assert Thrifty(m, g, op);
    assert Left(m, g, r.open) == Left(m, g, s.open)[o := g.maxop - Used(m, np)];
    SumUpdate(Left(m, g, s.open), o, g.maxop - Used(m, np));
    if b in s.lh {
      UsedGrows(m, op, np);
    } else {
      assert b !in op.wrote;
    }
    AbsorbMembers(s.lh, b);
  }

  lemma UsedGrows(m: Measure, op: Op, np: Op)
    requires op.calls <= np.calls && op.wrote <= np.wrote
    ensures Used(m, op) <= Used(m, np)
  {
    assert np.wrote == op.wrote + (np.wrote - op.wrote);
  }

  lemma AbsorbMembers(lh: seq<nat>, b: nat)
    ensures forall x :: x in Absorb(lh, b) <==> x in lh || x == b
  {
    AppendMembers(lh, b);
  }

  lemma EndKeepsRoom(m: Measure, g: Layout, s: State, o: nat)
    requires Inv(g, s) && Enabled(g, s, EndOp(o)) && Room(m, g, s)
    ensures Room(m, g, Apply(g, s, EndOp(o)))
  {
    var r := Ended(s, o);
    var l := Left(m, g, s.open);
    assert Left(m, g, r.open) == l[..o] + l[o + 1..];
    SumRemove(l, o);
    forall i | 0 <= i < |r.open| ensures r.open[i] in s.open {
      assert r.open[i] == s.open[if i < o then i else i + 1];
    }
  }

  lemma StepKeepsRoom(m: Measure, g: Layout, s: State, st: Step)
    requires Inv(g, s) && Enabled(g, s, st) && Frugal(m, g, s, st) && Room(m, g, s)
    ensures Room(m, g, Apply(g, s, st))
  {
    match st
    case BeginOp => BeginKeepsRoom(m, g, s);
    case LogTest(o, b, data) => TestKeepsRoom(m, g, s, o, b, data);
    case LogAppend(o, b) => AppendKeepsRoom(m, g, s, o, b);
    case EndOp(o) => EndKeepsRoom(m, g, s, o);
    case Commit =>
  }

  // The number of logged blocks and what is left to the open operations never
  // exceed LOGSIZE, however operations interleave.
  lemma {:induction false} AdmissionLeavesRoom(m: Measure, g: Layout, s: State, tr: seq<Step>)
    requires Inv(g, s) && Room(m, g, s) && CanRun(g, s, tr) && FrugalRun(m, g, s, tr)
    ensures Room(m, g, Exec(g, s, tr))
    decreases |tr|
  {
    if tr != [] {
      StepKeepsRoom(m, g, s, tr[0]);
      AdmissionLeavesRoom(m, g, Apply(g, s, tr[0]), tr[1..]);
    }
  }

  lemma {:induction false} SumFull(n: nat, m: int)
    ensures Sum(seq(n, i requires 0 <= i < n => m)) == n * m
  {
    if n > 0 {
      SumFull(n - 1, m);
      assert seq(n, i requires 0 <= i < n => m)[1..] == seq(n - 1, i requires 0 <= i < n - 1 => m);
    }
  }

  // begin_op() admits an operation exactly if no commit is under way and the log
  // has room even if every open operation and the new one log MAXOPBLOCKS more.
  lemma AdmitsExactly(g: Layout, s: State)
    ensures Admits(g, s) <==> !s.committing && forall more: seq<int> ::
      |more| == |s.open| + 1 && (forall i :: 0 <= i < |more| ==> 0 <= more[i] <= g.maxop) ==>
        |s.lh| + Sum(more) <= g.limit
  {
    forall more: seq<int> | |more| == |s.open| + 1 && forall i :: 0 <= i < |more| ==> 0 <= more[i] <= g.maxop
      ensures Sum(more) <= (|s.open| + 1) * g.maxop
    {
      SumAtMost(more, g.maxop);
    }
    var n := |s.open| + 1;
    var full: seq<int> := seq(n, i requires 0 <= i < n => g.maxop as int);
    SumFull(n, g.maxop);
    assert Sum(full) == n * g.maxop;
  }

  // ------------------------------------------- when log_write() can panic

  // In the state the run tr reaches, an operation may call log_write() on b.
  ghost predicate MayWrite(m: Measure, g: Layout, d: Disk, tr: seq<Step>, o: nat, b: nat) {
    && Clean(g, d) && CanRun(g, Booted(d), tr) && FrugalRun(m, g, Booted(d), tr)
    && var s := Exec(g, Booted(d), tr);
      && o < |s.open| && s.open[o].pending == None && Home(g, b, |d|) && b !in InHand(s.open)
      && Frugal(m, g, s, LogTest(o, b, []))
  }

  // No run of operations that keep to MAXOPBLOCKS ends in "too big a transaction".
  ghost predicate NeverPanics(m: Measure, g: Layout) {
    forall d, tr, o: nat, b: nat :: MayWrite(m, g, d, tr, o, b) ==> !TooBig(g, Exec(g, Booted(d), tr))
  }

  lemma CallsLeaveRoom(g: Layout, d: Disk, tr: seq<Step>, o: nat, b: nat)
    requires MayWrite(Calls, g, d, tr, o, b) && g.size > g.limit
    ensures !TooBig(g, Exec(g, Booted(d), tr))
  {
    hide Inv, CanRun, Exec, FrugalRun, Room, Home, Clean, InHand;
    BootedInv(g, d);
    AdmissionLeavesRoom(Calls, g, Booted(d), tr);
    CallLeft(g, Exec(g, Booted(d), tr), o);
  }

  lemma CallLeft(g: Layout, s: State, o: nat)
    requires Room(Calls, g, s) && o < |s.open| && s.open[o].calls < g.maxop
    ensures |s.lh| < g.limit
  {
    SumAtLeast(Left(Calls, g, s.open), o);
  }

  // --------------------------------------- when the log on disk can overflow

  // What the source does with operations that keep to MAXOPBLOCKS. Once it has
  // recorded more blocks than the log on disk has room for, anything can follow.
  ghost predicate SourceRun(m: Measure, g: Layout, s: State, tr: seq<Step>)
    requires Inv(g, s)
    decreases |tr|
  {
    tr == [] || (Allowed(g, s, tr[0]) && Frugal(m, g, s, tr[0]) &&
                 (Enabled(g, s, tr[0]) ==> SourceRun(m, g, Apply(g, s, tr[0]), tr[1..])))
  }

  // That never happens.
  ghost predicate StaysInLog(m: Measure, g: Layout) {
    forall d, tr :: Clean(g, d) && SourceRun(m, g, Booted(d), tr) ==> CanRun(g, Booted(d), tr)
  }

  lemma AllowedFits(m: Measure, g: Layout, s: State, st: Step)
    requires Inv(g, s) && Room(m, g, s) && Allowed(g, s, st) && g.size > g.limit
    ensures Enabled(g, s, st)
  {
    if st.LogAppend? && st.b !in s.lh {
      var op := s.open[st.o];
      assert st.b !in op.wrote;
      assert Left(m, g, s.open)[st.o] >= 1;
      SumAtLeast(Left(m, g, s.open), st.o);
    }
  }

  // With the block more, the machine has every run of the source.
  lemma {:induction false} SourceStays(m: Measure, g: Layout, s: State, tr: seq<Step>)
    requires Inv(g, s) && Room(m, g, s) && SourceRun(m, g, s, tr) && g.size > g.limit
    ensures CanRun(g, s, tr) && FrugalRun(m, g, s, tr)
    decreases |tr|
  {
    if tr != [] {
      AllowedFits(m, g, s, tr[0]);
      StepKeepsRoom(m, g, s, tr[0]);
      hide Inv, Apply, Room, Enabled;
      SourceStays(m, g, Apply(g, s, tr[0]), tr[1..]);
    }
  }

  // One life of the source's machine, with a crash at a block write of its run.
  ghost predicate SourceLife(m: Measure, g: Layout, d: Disk, l: Life) {
    && Clean(g, d) && SourceRun(m, g, Booted(d), l.tr)
    && (CanRun(g, Booted(d), l.tr) ==> l.k <= |Trace(g, Booted(d), l.tr)|)
  }

  lemma SourcePossible(m: Measure, g: Layout, d: Disk, l: Life)
    requires SourceLife(m, g, d, l) && g.size > g.limit
    ensures Possible(g, d, l)
  {
    SourceStays(m, g, Booted(d), l.tr);
  }

  ghost predicate SourceLives(m: Measure, g: Layout, d: Disk, lives: seq<Life>)
    decreases |lives|
  {
    && Clean(g, d)
    && (lives != [] ==>
          && SourceLife(m, g, d, lives[0])
          && (Possible(g, d, lives[0]) ==> SourceLives(m, g, Rebooted(g, d, lives[0]), lives[1..])))
  }

  lemma {:induction false} SourceCanLive(m: Measure, g: Layout, d: Disk, lives: seq<Life>)
    requires SourceLives(m, g, d, lives) && g.size > g.limit
    ensures CanLive(g, d, lives)
    decreases |lives|
  {
    if lives != [] {
      SourcePossible(m, g, d, lives[0]);
      SourceCanLive(m, g, Rebooted(g, d, lives[0]), lives[1..]);
    }
  }

  // All or nothing over any number of crashes, for all that the source does on
  // a log of more than LOGSIZE blocks.
  lemma SourceAtomic(m: Measure, g: Layout, d: Disk, lives: seq<Life>) returns (ps: seq<nat>)
    requires SourceLives(m, g, d, lives) && g.size > g.limit
    ensures CanLive(g, d, lives) && |ps| == |lives| && forall i :: 0 <= i < |ps| ==> ps[i] <= |lives[i].tr|
    ensures AllWhole(g, d, lives, ps)
    ensures SameHome(g, AfterLives(g, d, lives), Contents(d, Kept(lives, ps)))
  {
    hide *;
    SourceCanLive(m, g, d, lives);
    ps := LivesAtomic(g, d, lives);
  }

  // ------------------------------------------------------- filling the log

  function Upto(base: nat, n: nat): (bs: seq<nat>)
    ensures |bs| == n
  {
    seq(n, i requires 0 <= i < n => base + i)
  }

  function Words(g: Layout, x: int): (b: Block)
    ensures |b| == g.words && forall i :: 0 <= i < |b| ==> b[i] == x
  {
    seq(g.words, i requires 0 <= i => x)
  }

  function Blank(g: Layout, len: nat): (d: Disk)
    ensures |d| == len && forall b :: 0 <= b < |d| ==> d[b] == Words(g, 0)
  {
    seq(len, i requires 0 <= i => Words(g, 0))
  }

  lemma BlankClean(g: Layout, len: nat)
    requires g.limit + 1 < g.words && 1 <= g.size && g.start + g.size <= len
    ensures Clean(g, Blank(g, len))
  {
  }

  // The run tr, of operations that keep to MAXOPBLOCKS in both ways, goes from
  // the disk d to s.
  ghost predicate Reached(g: Layout, d: Disk, tr: seq<Step>, s: State) {
    && Clean(g, d) && CanRun(g, Booted(d), tr) && Exec(g, Booted(d), tr) == s
    && FrugalRun(Calls, g, Booted(d), tr) && FrugalRun(Blocks, g, Booted(d), tr)
  }

  lemma {:induction false} RunLonger(m: Measure, g: Layout, s: State, tr: seq<Step>, st: Step)
    requires Inv(g, s) && CanRun(g, s, tr) && FrugalRun(m, g, s, tr)
    requires Enabled(g, Exec(g, s, tr), st) && Frugal(m, g, Exec(g, s, tr), st)
    ensures CanRun(g, s, tr + [st]) && FrugalRun(m, g, s, tr + [st])
    ensures Exec(g, s, tr + [st]) == Apply(g, Exec(g, s, tr), st)
    decreases |tr|
  {
    hide Inv, Apply, Enabled, Frugal;
    if tr == [] {
      assert (tr + [st])[1..] == [];
    } else {
      assert (tr + [st])[0] == tr[0] && (tr + [st])[1..] == tr[1..] + [st];
      RunLonger(m, g, Apply(g, s, tr[0]), tr[1..], st);
    }
  }

  lemma ReachedNext(g: Layout, d: Disk, tr: seq<Step>, s: State, st: Step)
    requires Reached(g, d, tr, s) && Inv(g, s) && Enabled(g, s, st)
    requires Frugal(Calls, g, s, st) && Frugal(Blocks, g, s, st)
    ensures Reached(g, d, tr + [st], Apply(g, s, st))
  {
    hide Inv, Apply, Enabled, Frugal, Exec, CanRun, FrugalRun, Clean;
    BootedInv(g, d);
    RunLonger(Calls, g, Booted(d), tr, st);
    RunLonger(Blocks, g, Booted(d), tr, st);
  }

  lemma BootedInv(g: Layout, d: Disk)
    requires Clean(g, d)
    ensures Inv(g, Booted(d)) && forall m: Measure :: Room(m, g, Booted(d))
  {
  }

  // Three operations are open and have logged the n blocks from base on,
  // operation o in cs[o] calls on different blocks.
  ghost predicate Filled(g: Layout, s: State, base: nat, n: nat, cs: seq<nat>) {
    && Inv(g, s) && s.lh == Upto(base, n) && |s.open| == |cs| == 3
    && forall o :: 0 <= o < 3 ==> FilledBy(s.open[o], cs[o])
  }

  predicate FilledBy(op: Op, calls: nat) {
    op.pending == None && op.calls == calls && |op.wrote| <= calls && (calls > 0 ==> op.wrote != {})
  }

  lemma BeginThree(g: Layout, d: Disk, base: nat) returns (tr: seq<Step>, s: State)
    requires Clean(g, d) && g.limit == 3 * g.maxop
    ensures Reached(g, d, tr, s) && Filled(g, s, base, 0, [0, 0, 0]) && s.disk == d
  {
    s := Booted(d);
    BootedInv(g, d);
    tr := [];
    ReachedNext(g, d, tr, s, BeginOp);
    tr, s := tr + [BeginOp], Apply(g, s, BeginOp);
    ReachedNext(g, d, tr, s, BeginOp);
    tr, s := tr + [BeginOp], Apply(g, s, BeginOp);
    ReachedNext(g, d, tr, s, BeginOp);
    tr, s := tr + [BeginOp], Apply(g, s, BeginOp);
  }

  // Operation o passes the tests with a new block.
  lemma CanTest(g: Layout, s: State, o: nat, b: nat, data: Block)
    requires Inv(g, s) && o < |s.open| && FilledBy(s.open[o], s.open[o].calls) && s.open[o].calls < g.maxop
    requires !TooBig(g, s) && Home(g, b, |s.disk|) && b !in InHand(s.open) && |data| == g.words
    ensures var st := LogTest(o, b, data);
      && Enabled(g, s, st) && Frugal(Calls, g, s, st) && Frugal(Blocks, g, s, st)
      && Apply(g, s, st) == Tested(s, o, b, data)
  {
  }

  lemma NoHands(open: seq<Op>)
    requires forall o :: 0 <= o < |open| ==> open[o].pending == None
    ensures InHand(open) == {}
  {
  }

  lemma FillOne(g: Layout, d: Disk, tr: seq<Step>, s: State, base: nat, n: nat, cs: seq<nat>, o: nat)
    returns (tr2: seq<Step>, s2: State)
    requires Reached(g, d, tr, s) && Filled(g, s, base, n, cs) && o < 3 && cs[o] < g.maxop
    requires !TooBig(g, s) && g.start + g.size <= base && base + n < |s.disk|
    ensures Reached(g, d, tr2, s2) && Filled(g, s2, base, n + 1, cs[o := cs[o] + 1]) && s2.disk == s.disk
  {
    hide Reached;
    var b := base + n;
    NoHands(s.open);
    var test, append := LogTest(o, b, Words(g, 1)), LogAppend(o, b);
    CanTest(g, s, o, b, Words(g, 1));
    ReachedNext(g, d, tr, s, test);
    var t := Tested(s, o, b, Words(g, 1));
    ReachedNext(g, d, tr + [test], t, append);
    tr2, s2 := tr + [test] + [append], Appended(t, o, b);
    assert b !in s.lh && Upto(base, n) + [b] == Upto(base, n + 1);
  }

  lemma {:induction false} FillMore(g: Layout, d: Disk, tr: seq<Step>, s: State, base: nat, n: nat, cs: seq<nat>,
                                    o: nat, c: nat)
    returns (tr2: seq<Step>, s2: State)
    requires Reached(g, d, tr, s) && Filled(g, s, base, n, cs) && o < 3 && cs[o] + c <= g.maxop
    requires n + c <= g.limit && n + c < g.size && g.start + g.size <= base && base + n + c <= |s.disk|
    ensures Reached(g, d, tr2, s2) && Filled(g, s2, base, n + c, cs[o := cs[o] + c]) && s2.disk == s.disk
    decreases c
  {
    hide Reached, Inv;
    if c == 0 {
      tr2, s2 := tr, s;
      assert cs[o := cs[o]] == cs;
    } else {
      var tr1, s1 := FillOne(g, d, tr, s, base, n, cs, o);
      tr2, s2 := FillMore(g, d, tr1, s1, base, n + 1, cs[o := cs[o] + 1], o, c - 1);
      assert cs[o := cs[o] + 1][o := cs[o] + c] == cs[o := cs[o] + c];
    }
  }

  // Three operations log the first n blocks from base on, the first a of them,
  // the second c and the third e.
  lemma LogFills(g: Layout, d: Disk, base: nat, a: nat, c: nat, e: nat) returns (tr: seq<Step>, s: State)
    requires Clean(g, d) && g.limit == 3 * g.maxop && a <= g.maxop && c <= g.maxop && e <= g.maxop
    requires a + c + e < g.size && g.start + g.size <= base && base + a + c + e <= |d|
    ensures Reached(g, d, tr, s) && Filled(g, s, base, a + c + e, [a, c, e]) && s.disk == d
  {
    hide Reached, Filled, Clean;
    tr, s := BeginThree(g, d, base);
    tr, s := FillMore(g, d, tr, s, base, 0, [0, 0, 0], 0, a);
    assert [0, 0, 0][0 := 0 + a] == [a, 0, 0];
    tr, s := FillMore(g, d, tr, s, base, a, [a, 0, 0], 1, c);
    assert [a, 0, 0][1 := 0 + c] == [a, c, 0];
    tr, s := FillMore(g, d, tr, s, base, a + c, [a, c, 0], 2, e);
    assert [a, c, 0][2 := 0 + e] == [a, c, e];
  }

  // n calls shared out among three operations, the last with as few as can be.
  lemma Shares(n: nat, first: nat, rest: nat) returns (a: nat, c: nat, e: nat)
    requires n <= first + 2 * rest
    ensures a + c + e == n && a <= first && c <= rest && e <= rest && (n > first + rest ==> e > 0)
    ensures n < first + 2 * rest ==> e < rest || rest == 0
  {
    a := if n < first then n else first;
    c := if n - a < rest then n - a else rest;
    e := n - a - c;
  }

  // With MAXOPBLOCKS a bound on the calls of an operation, log_write() cannot
  // panic exactly if the log on disk is one block longer than mkfs makes it.
  // With MAXOPBLOCKS a bound on its distinct blocks it can for every size: the
  // test comes before the search for the block, and a full log fails it even
  // for a block that is there already.
  lemma PanicFreeExactly(g: Layout)
    requires g.limit == 3 * g.maxop && g.maxop > 0 && g.limit + 1 < g.words && g.size > 0
    ensures NeverPanics(Calls, g) <==> g.size > g.limit
    ensures !NeverPanics(Blocks, g)
  {
    if g.size > g.limit {
      forall d, tr, o: nat, b: nat | MayWrite(Calls, g, d, tr, o, b) ensures !TooBig(g, Exec(g, Booted(d), tr)) {
        CallsLeaveRoom(g, d, tr, o, b);
      }
      BlocksPanic(g);
    } else {
      ShortPanics(g);
    }
  }

  // The third operation writes its last block once more.
  lemma BlocksPanic(g: Layout)
    requires g.limit == 3 * g.maxop && g.maxop > 0 && g.limit + 1 < g.words && g.size > g.limit
    ensures !NeverPanics(Blocks, g)
  {
    var base := g.start + g.size;
    var d := Blank(g, base + g.limit);
    var tr, s := LogFills(g, d, base, g.maxop, g.maxop, g.maxop);
    NoHands(s.open);
    var w :| w in s.open[2].wrote;
    assert s.open[2].wrote + {w} == s.open[2].wrote;
    AdmissionLeavesRoom(Blocks, g, Booted(d), tr);
    assert w in s.lh;
    assert MayWrite(Blocks, g, d, tr, 2, w);
    assert TooBig(g, Exec(g, Booted(d), tr));
  }

  // The third operation writes one block more.
  lemma ShortPanics(g: Layout)
    requires g.limit == 3 * g.maxop && g.maxop > 0 && g.limit + 1 < g.words && 0 < g.size <= g.limit
    ensures !NeverPanics(Calls, g) && !NeverPanics(Blocks, g)
  {
    var base := g.start + g.size;
    var d := Blank(g, base + g.size);
    var a, c, e := Shares(g.size - 1, g.maxop, g.maxop);
    var tr, s := LogFills(g, d, base, a, c, e);
    NoHands(s.open);
    assert TooBig(g, s);
    CanCall(s.open[2], e, base + g.size - 1);
    assert MayWrite(Calls, g, d, tr, 2, base + g.size - 1);
    assert MayWrite(Blocks, g, d, tr, 2, base + g.size - 1);
  }

  lemma CanCall(op: Op, calls: nat, b: nat)
    requires FilledBy(op, calls)
    ensures forall m :: Used(m, After(op, b)) <= calls + 1
  {
  }

  // ---------------------------------------------------- overfilling the log

  lemma {:induction false} SourceLonger(m: Measure, g: Layout, s: State, tr: seq<Step>, st: Step)
    requires Inv(g, s) && CanRun(g, s, tr) && FrugalRun(m, g, s, tr)
    requires Allowed(g, Exec(g, s, tr), st) && Frugal(m, g, Exec(g, s, tr), st) && !Enabled(g, Exec(g, s, tr), st)
    ensures SourceRun(m, g, s, tr + [st]) && !CanRun(g, s, tr + [st])
    decreases |tr|
  {
    if tr == [] {
      assert (tr + [st])[0] == st;
    } else {
      assert (tr + [st])[0] == tr[0] && (tr + [st])[1..] == tr[1..] + [st];
      assert Allowed(g, s, tr[0]);
      hide Inv, Apply, Frugal, Allowed;
      SourceLonger(m, g, Apply(g, s, tr[0]), tr[1..], st);
    }
  }

  // Two operations have passed the tests and nothing is left but one block.
  ghost predicate BothPassed(g: Layout, s: State, base: nat) {
    && Inv(g, s) && 2 <= g.size && s.lh == Upto(base, g.size - 2) && |s.open| == 3
    && s.open[1].pending == Some(base + g.size - 2) && s.open[2].pending == Some(base + g.size - 1)
    && InHand(s.open) == {base + g.size - 2, base + g.size - 1}
    && base + g.size <= |s.view| && s.view[base + g.size - 1] == Words(g, 1)
  }

  // Operation o passes the tests, on the way from d.
  lemma PassOne(g: Layout, d: Disk, tr: seq<Step>, s: State, o: nat, calls: nat, b: nat)
    requires Reached(g, d, tr, s) && Inv(g, s) && o < |s.open| && FilledBy(s.open[o], calls) && calls < g.maxop
    requires !TooBig(g, s) && Home(g, b, |s.disk|) && b !in InHand(s.open)
    ensures b < |s.view| && |s.view| == |s.disk|
    ensures var t := Tested(s, o, b, Words(g, 1));
      && Reached(g, d, tr + [LogTest(o, b, Words(g, 1))], t) && Inv(g, t) && InHand(t.open) == InHand(s.open) + {b}
  {
    hide Reached;
    CanTest(g, s, o, b, Words(g, 1));
    ReachedNext(g, d, tr, s, LogTest(o, b, Words(g, 1)));
    TestedHands(s.open, o, b);
  }

  lemma BothPass(g: Layout, d: Disk, base: nat) returns (tr: seq<Step>, s: State)
    requires Clean(g, d) && g.limit == 3 * g.maxop && g.maxop > 0 && 2 <= g.size <= g.limit
    requires g.start + g.size <= base && base + g.size <= |d|
    ensures Reached(g, d, tr, s) && BothPassed(g, s, base) && s.disk == d
  {
    hide Reached, Inv;
    var a, c, e := Shares(g.size - 2, g.maxop, g.maxop - 1);
    tr, s := LogFills(g, d, base, a, c, e);
    NoHands(s.open);
    var b := base + g.size - 2;
    PassOne(g, d, tr, s, 1, c, b);
    tr, s := tr + [LogTest(1, b, Words(g, 1))], Tested(s, 1, b, Words(g, 1));
    PassOne(g, d, tr, s, 2, e, b + 1);
    tr, s := tr + [LogTest(2, b + 1, Words(g, 1))], Tested(s, 2, b + 1, Words(g, 1));
  }

  // The first of the two records its block; the second is past the tests.
  ghost predicate Overfilling(g: Layout, s: State, base: nat) {
    && Inv(g, s) && 2 <= g.size && s.lh == Upto(base, g.size - 1) && |s.open| == 3
    && s.open[2].pending == Some(base + g.size - 1) && InHand(s.open) == {base + g.size - 1}
    && base + g.size <= |s.view| && s.view[base + g.size - 1] == Words(g, 1)
  }

  lemma Overfills(g: Layout, d: Disk, base: nat) returns (tr: seq<Step>, s: State)
    requires Clean(g, d) && g.limit == 3 * g.maxop && g.maxop > 0 && 2 <= g.size <= g.limit
    requires g.start + g.size <= base && base + g.size <= |d|
    ensures Reached(g, d, tr, s) && Overfilling(g, s, base) && s.disk == d
    ensures Allowed(g, s, LogAppend(2, base + g.size - 1)) && !Enabled(g, s, LogAppend(2, base + g.size - 1))
  {
    hide Reached;
    tr, s := BothPass(g, d, base);
    var b := base + g.size - 2;
    assert b !in s.lh && Upto(base, g.size - 2) + [b] == Upto(base, g.size - 1);
    ReachedNext(g, d, tr, s, LogAppend(1, b));
    AppendedHands(g, s.open, |s.disk|, 1, b);
    tr, s := tr + [LogAppend(1, b)], Appended(s, 1, b);
    assert b + 1 !in s.lh;
  }

  // log_write() tests the log before it takes the lock, and two operations can
  // pass the test before either records its block. So operations that keep to
  // MAXOPBLOCKS, in calls or in blocks, stay within the log on disk exactly if
  // that is one block longer than mkfs makes it.
  lemma StaysInLogExactly(m: Measure, g: Layout)
    requires g.limit == 3 * g.maxop && g.maxop > 0 && g.limit + 1 < g.words && g.size >= 2
    ensures StaysInLog(m, g) <==> g.size > g.limit
  {
    if g.size > g.limit {
      forall d, tr | Clean(g, d) && SourceRun(m, g, Booted(d), tr) ensures CanRun(g, Booted(d), tr) {
        BootedInv(g, d);
        SourceStays(m, g, Booted(d), tr);
      }
    } else {
      var base := g.start + g.size;
      var d := Blank(g, base + g.size);
      var tr, s := Overfills(g, d, base);
      SourceLonger(m, g, Booted(d), tr, LogAppend(2, base + g.size - 1));
    }
  }

  // Only the header and the blocks of bs are written.
  ghost predicate OnlyTo(g: Layout, ws: seq<Write>, bs: seq<nat>) {
    forall i :: 0 <= i < |ws| ==> ws[i].b == g.start || ws[i].b in bs
  }

  // What then goes wrong. As many buffers are pinned as the log has blocks: if
  // there are no more, bget() panics in the commit. Otherwise, without any
  // crash, the commit writes one block past the log. With mkfs that is the first
  // block of inodes. No operation has written it, and nothing that commit or a
  // recovery writes later, to the header or to the logged blocks, brings it back.
  lemma OverfullCommit(g: Layout) returns (d: Disk, tr: seq<Step>, s: State, b: nat)
    requires g.limit == 3 * g.maxop && g.maxop > 0 && g.limit + 1 < g.words && 2 <= g.size <= g.limit
    ensures Reached(g, d, tr, s) && Allowed(g, s, LogAppend(2, b))
    ensures var t := Appended(s, 2, b); var next := g.start + g.size;
      && |t.lh| == |Elems(t.lh)| == g.size && Home(g, next, |d|) && Contents(d, tr)[next] == d[next]
      && (forall i :: 0 <= i < |t.lh| ==> t.lh[i] < |t.view|)
      && forall rest :: OnlyTo(g, rest, t.lh) ==> Replay(t.disk, LogWrites(g, t.view, t.lh) + rest)[next] != d[next]
  {
    hide Reached, Inv, Allowed, Overfilling, Clean, Replay, LogWrites, Contents, OnlyTo, Enabled, Appended,
      Elems;
    var next := g.start + g.size;
    d := Blank(g, next + 1 + g.size);
    BlankClean(g, next + 1 + g.size);
    tr, s := Overfills(g, d, next + 1);
    b := next + g.size;
    NextUntouched(g, d, tr, s, next + 1);
    OverfullList(g, s, next + 1);
    var t := Appended(s, 2, b);
    PastTheLog(g, t.disk, t.view, t.lh);
    assert Words(g, 1)[0] != Words(g, 0)[0];
  }

  lemma NextUntouched(g: Layout, d: Disk, tr: seq<Step>, s: State, base: nat)
    requires Reached(g, d, tr, s) && Overfilling(g, s, base) && s.disk == d && g.start + g.size < base
    ensures var next := g.start + g.size; Home(g, next, |d|) && Contents(d, tr)[next] == d[next]
  {
    ViewIsContents(g, Booted(d), tr);
  }

  lemma OverfullList(g: Layout, s: State, base: nat)
    requires Overfilling(g, s, base) && g.start + g.size < base
    ensures |s.open| == 3
    ensures var t := Appended(s, 2, base + g.size - 1);
      && t.disk == s.disk && |t.view| == |t.disk| && |t.lh| == |Elems(t.lh)| == g.size && g.start + g.size !in t.lh
      && (forall i :: 0 <= i < |t.lh| ==> t.lh[i] < |t.view|)
      && t.view[t.lh[g.size - 1]] == Words(g, 1)
  {
    var b := base + g.size - 1;
    assert b !in s.lh && Upto(base, g.size - 1) + [b] == Upto(base, g.size);
    ElemsUpto(base, g.size);
  }

  lemma PastTheLog(g: Layout, d: Disk, view: Disk, bs: seq<nat>)
    requires |bs| == g.size > 0 && g.start + g.size < |d| && forall i :: 0 <= i < |bs| ==> bs[i] < |view|
    requires g.start + g.size !in bs
    ensures forall rest :: OnlyTo(g, rest, bs) ==>
      Replay(d, LogWrites(g, view, bs) + rest)[g.start + g.size] == view[bs[g.size - 1]]
  {
    hide Replay, OnlyTo, LogWrites;
    forall rest | OnlyTo(g, rest, bs)
      ensures Replay(d, LogWrites(g, view, bs) + rest)[g.start + g.size] == view[bs[g.size - 1]]
    {
      LastStays(g, d, view, bs, rest);
    }
  }

  lemma LastStays(g: Layout, d: Disk, view: Disk, bs: seq<nat>, rest: seq<Write>)
    requires |bs| == g.size > 0 && g.start + g.size < |d| && forall i :: 0 <= i < |bs| ==> bs[i] < |view|
    requires g.start + g.size !in bs && OnlyTo(g, rest, bs)
    ensures Replay(d, LogWrites(g, view, bs) + rest)[g.start + g.size] == view[bs[g.size - 1]]
  {
    hide Replay;
    var ws := LogWrites(g, view, bs);
    ReplayLast(d, ws, g.size - 1);
    ReplayConcat(d, ws, rest);
    ReplayAvoids(Replay(d, ws), rest, g.start + g.size);
  }

  // ----------------------------------------------------------- buffers needed

  lemma HandFirst(open: seq<Op>)
    requires open != []
    ensures InHand(open) == InHand(open[1..]) + if open[0].pending.Some? then {open[0].pending.value} else {}
  {
    forall b | b in InHand(open) && open[0].pending != Some(b) ensures b in InHand(open[1..]) {
      var i :| 0 <= i < |open| && open[i].pending == Some(b);
      assert open[1..][i - 1] == open[i];
    }
    forall b | b in InHand(open[1..]) ensures b in InHand(open) {
      var i :| 0 <= i < |open[1..]| && open[1..][i].pending == Some(b);
      assert open[i + 1] == open[1..][i];
    }
  }

  lemma LeftFirst(m: Measure, g: Layout, open: seq<Op>)
    requires open != []
    ensures Sum(Left(m, g, open)) == g.maxop - Used(m, open[0]) + Sum(Left(m, g, open[1..]))
  {
    assert Left(m, g, open)[1..] == Left(m, g, open[1..]);
  }

  lemma ThriftyHand(m: Measure, g: Layout, op: Op)
    requires Thrifty(m, g, op)
    ensures Used(m, op) <= g.maxop
    ensures op.pending.Some? && op.pending.value !in op.wrote ==> Used(m, op) < g.maxop
  {
  }

  // Each block in hand that is not in the log yet is one that its operation has
  // left.
  lemma {:induction false} HandsCount(m: Measure, g: Layout, open: seq<Op>, lh: set<nat>)
    requires forall i :: 0 <= i < |open| ==> Thrifty(m, g, open[i]) && open[i].wrote <= lh
    ensures |InHand(open) - lh| <= Sum(Left(m, g, open))
    decreases |open|
  {
    hide Left, Sum, Thrifty, Used, InHand;
    if open == [] {
      NoHands(open);
      assert InHand(open) - lh == {};
      LeftNone(m, g);
    } else {
      HandsCount(m, g, open[1..], lh);
      HandFirst(open);
      LeftFirst(m, g, open);
      ThriftyHand(m, g, open[0]);
      var first := if open[0].pending.Some? then {open[0].pending.value} else {};
      UnionMinus(InHand(open[1..]), first, lh);
      assert first - lh == if open[0].pending.Some? && open[0].pending.value !in lh then first else {};
    }
  }

  lemma UnionMinus(a: set<nat>, c: set<nat>, without: set<nat>)
    ensures |a + c - without| <= |a - without| + |c - without|
  {
    assert a + c - without == (a - without) + (c - without);
  }

  lemma LeftNone(m: Measure, g: Layout)
    ensures Sum(Left(m, g, [])) == 0
  {
  }

  // The buffers that the log pins and those that operations have in hand.
  lemma PinnedFit(m: Measure, g: Layout, s: State)
    requires Room(m, g, s)
    ensures |Elems(s.lh) + InHand(s.open)| <= g.limit
  {
    HandsCount(m, g, s.open, Elems(s.lh));
    ElemsBound(s.lh);
    assert Elems(s.lh) + InHand(s.open) == Elems(s.lh) + (InHand(s.open) - Elems(s.lh));
  }

  // Beside the block of the next log_write() there is room for one less.
  lemma BeforeTest(m: Measure, g: Layout, s: State, o: nat, b: nat, data: Block)
    requires Inv(g, s) && Enabled(g, s, LogTest(o, b, data)) && Frugal(m, g, s, LogTest(o, b, data)) && Room(m, g, s)
    ensures b in s.lh || |Elems(s.lh) + InHand(s.open)| < g.limit
  {
    hide *;
    TestedRoom(m, g, s, o, b, data);
    PinnedFit(m, g, Tested(s, o, b, data));
    if b !in s.lh {
      assert Elems(s.lh) + (InHand(s.open) + {b}) == Elems(s.lh) + InHand(s.open) + {b};
    }
  }

  lemma TestedRoom(m: Measure, g: Layout, s: State, o: nat, b: nat, data: Block)
    requires Inv(g, s) && Enabled(g, s, LogTest(o, b, data)) && Frugal(m, g, s, LogTest(o, b, data)) && Room(m, g, s)
    ensures o < |s.open| && b < |s.view| && b !in InHand(s.open)
    ensures var t := Tested(s, o, b, data); Room(m, g, t) && t.lh == s.lh && InHand(t.open) == InHand(s.open) + {b}
  {
    TestKeepsRoom(m, g, s, o, b, data);
    TestEnabled(g, s, o, b, data);
    TestedHands(s.open, o, b);
  }

  // bget() finds a buffer for the block that is to be read.
  ghost predicate FindsBuffer(s: State, st: Step, nbuf: nat) {
    st.LogTest? ==> st.b in s.lh || |Elems(s.lh) + InHand(s.open)| < nbuf
  }

  // It does so in the whole run.
  ghost predicate BuffersLast(g: Layout, s: State, tr: seq<Step>, nbuf: nat)
    requires Inv(g, s) && CanRun(g, s, tr)
    decreases |tr|
  {
    tr == [] || (FindsBuffer(s, tr[0], nbuf) && BuffersLast(g, Apply(g, s, tr[0]), tr[1..], nbuf))
  }

  // LOGSIZE buffers are enough for operations that keep to MAXOPBLOCKS, as long
  // as no process holds any other.
  lemma {:induction false} FrugalBuffers(m: Measure, g: Layout, s: State, tr: seq<Step>, nbuf: nat)
    requires Inv(g, s) && Room(m, g, s) && CanRun(g, s, tr) && FrugalRun(m, g, s, tr) && nbuf >= g.limit
    ensures BuffersLast(g, s, tr, nbuf)
    decreases |tr|
  {
    hide Inv, Apply, Enabled, Frugal, Room, Elems, InHand;
    if tr != [] {
      StepKeepsRoom(m, g, s, tr[0]);
      if tr[0].LogTest? {
        BeforeTest(m, g, s, tr[0].o, tr[0].b, tr[0].data);
      }
      FrugalBuffers(m, g, Apply(g, s, tr[0]), tr[1..], nbuf);
    }
  }

  // What commit() needs next to the buffers it has pinned, and operations next
  // to each other.
  predicate EnoughBuffers(g: Layout, nbuf: nat) {
    g.limit <= nbuf && (g.limit < nbuf || g.size <= nbuf)
  }

  // Operations have got from the quiet disk d to a state in which the buffers
  // that they have pinned or in hand, and those of the blocks others, which
  // processes hold for reading or have not called log_write() for yet, are as
  // many as there are.
  ghost predicate FillsCache(m: Measure, g: Layout, d: Disk, tr: seq<Step>, others: set<nat>, nbuf: nat) {
    && Clean(g, d) && CanRun(g, Booted(d), tr) && FrugalRun(m, g, Booted(d), tr)
    && (forall b :: b in others ==> b < |d|)
    && var s := Exec(g, Booted(d), tr); |Elems(s.lh) + InHand(s.open) + others| >= nbuf
  }

  // With at most h such other blocks that never happens.
  ghost predicate NeverFull(m: Measure, g: Layout, nbuf: nat, h: nat) {
    forall d, tr, others: set<nat> :: |others| <= h ==> !FillsCache(m, g, d, tr, others, nbuf)
  }

  lemma NeverFills(m: Measure, g: Layout, d: Disk, tr: seq<Step>, others: set<nat>, nbuf: nat)
    requires nbuf > g.limit + |others|
    ensures !FillsCache(m, g, d, tr, others, nbuf)
  {
    if Clean(g, d) && CanRun(g, Booted(d), tr) && FrugalRun(m, g, Booted(d), tr) {
      BootedInv(g, d);
      AdmissionLeavesRoom(m, g, Booted(d), tr);
      var s := Exec(g, Booted(d), tr);
      PinnedFit(m, g, s);
      UnionSize(Elems(s.lh) + InHand(s.open), others);
    }
  }

  lemma UnionSize(a: set<nat>, c: set<nat>)
    ensures |a + c| <= |a| + |c|
  {
    assert |a + c| == |a| + |c - a|;
  }

  ghost function Span(base: nat, n: nat): (s: set<nat>)
    ensures |s| == n && forall b :: b in s <==> base <= b < base + n
  {
    if n == 0 then {} else Span(base, n - 1) + {base + n - 1}
  }

  lemma ElemsUpto(base: nat, n: nat)
    ensures Elems(Upto(base, n)) == Span(base, n)
  {
    forall b | b in Span(base, n) ensures b in Upto(base, n) {
      assert Upto(base, n)[b - base] == b;
    }
  }

  // Three operations have logged all blocks but three, and the first n of them
  // have a new one in hand.
  ghost predicate Passing(g: Layout, s: State, base: nat, n: nat) {
    && Inv(g, s) && g.limit >= 3 && g.maxop > 0 && s.lh == Upto(base, g.limit - 3) && |s.open| == 3
    && InHand(s.open) == Span(base + g.limit - 3, n)
    && forall o :: n <= o < 3 ==> FilledBy(s.open[o], g.maxop - 1)
  }

  lemma PassNext(g: Layout, d: Disk, tr: seq<Step>, s: State, base: nat, n: nat) returns (tr2: seq<Step>, s2: State)
    requires Reached(g, d, tr, s) && Passing(g, s, base, n) && n < 3 && g.limit <= g.size + 1
    requires g.start + g.size <= base && base + g.limit <= |s.disk|
    ensures Reached(g, d, tr2, s2) && Passing(g, s2, base, n + 1) && s2.disk == s.disk
  {
    hide *;
    var b := base + g.limit - 3 + n;
    PassingFacts(g, s, base, n);
    PassOne(g, d, tr, s, n, g.maxop - 1, b);
    tr2, s2 := tr + [LogTest(n, b, Words(g, 1))], Tested(s, n, b, Words(g, 1));
    PassingNext(g, s, base, n);
  }

  lemma PassingFacts(g: Layout, s: State, base: nat, n: nat)
    requires Passing(g, s, base, n) && n < 3 && g.limit <= g.size + 1
    requires g.start + g.size <= base && base + g.limit <= |s.disk|
    ensures Inv(g, s) && n < |s.open| && g.maxop > 0 && g.limit >= 3 && FilledBy(s.open[n], g.maxop - 1)
    ensures var b := base + g.limit - 3 + n; !TooBig(g, s) && Home(g, b, |s.disk|) && b !in InHand(s.open)
  {
    hide Inv, InHand;
  }

  lemma PassingNext(g: Layout, s: State, base: nat, n: nat)
    requires Passing(g, s, base, n) && n < |s.open| && g.limit >= 3 && base + g.limit - 3 + n < |s.view|
    requires var t := Tested(s, n, base + g.limit - 3 + n, Words(g, 1));
      Inv(g, t) && InHand(t.open) == InHand(s.open) + {base + g.limit - 3 + n}
    ensures var t := Tested(s, n, base + g.limit - 3 + n, Words(g, 1)); Passing(g, t, base, n + 1) && t.disk == s.disk
  {
    hide Inv, InHand;
  }

  // Three operations fill the log as far as they can without a panic, and have
  // their last blocks in hand.
  lemma AllPass(g: Layout, d: Disk, base: nat) returns (tr: seq<Step>, s: State)
    requires Clean(g, d) && g.limit == 3 * g.maxop && g.maxop > 0 && g.limit <= g.size + 1
    requires g.start + g.size <= base && base + g.limit <= |d|
    ensures Reached(g, d, tr, s) && Elems(s.lh) + InHand(s.open) == Span(base, g.limit)
  {
    hide *;
    var k := g.maxop - 1;
    tr, s := LogFills(g, d, base, k, k, k);
    StartPassing(g, s, base);
    tr, s := PassNext(g, d, tr, s, base, 0);
    tr, s := PassNext(g, d, tr, s, base, 1);
    tr, s := PassNext(g, d, tr, s, base, 2);
    AllPassed(g, s, base);
  }

  lemma StartPassing(g: Layout, s: State, base: nat)
    requires g.limit == 3 * g.maxop && g.maxop > 0
    requires var k := g.maxop - 1; Filled(g, s, base, k + k + k, [k, k, k])
    ensures Passing(g, s, base, 0)
  {
    hide Inv;
    NoHands(s.open);
  }

  lemma AllPassed(g: Layout, s: State, base: nat)
    requires Passing(g, s, base, 3)
    ensures Elems(s.lh) + InHand(s.open) == Span(base, g.limit)
  {
    hide Inv, InHand;
    ElemsUpto(base, g.limit - 3);
  }

  lemma CacheFills(m: Measure, g: Layout, nbuf: nat, h: nat)
    requires g.limit == 3 * g.maxop && g.maxop > 0 && g.limit + 1 < g.words && 1 <= g.size && g.limit <= g.size + 1
    requires nbuf <= g.limit + h
    ensures !NeverFull(m, g, nbuf, h)
  {
    hide *;
    var base := g.start + g.size;
    var d := Blank(g, base + g.limit + h);
    BlankClean(g, base + g.limit + h);
    var tr, s := AllPass(g, d, base);
    Fills(m, g, d, tr, s, base, h, nbuf);
    NotNever(m, g, d, tr, Span(base + g.limit, h), nbuf, h);
  }

  lemma Fills(m: Measure, g: Layout, d: Disk, tr: seq<Step>, s: State, base: nat, h: nat, nbuf: nat)
    requires Reached(g, d, tr, s) && Elems(s.lh) + InHand(s.open) == Span(base, g.limit)
    requires |d| == base + g.limit + h && nbuf <= g.limit + h
    ensures FillsCache(m, g, d, tr, Span(base + g.limit, h), nbuf)
  {
    assert Span(base, g.limit) + Span(base + g.limit, h) == Span(base, g.limit + h);
  }

  lemma NotNever(m: Measure, g: Layout, d: Disk, tr: seq<Step>, others: set<nat>, nbuf: nat, h: nat)
    requires FillsCache(m, g, d, tr, others, nbuf) && |others| <= h
    ensures !NeverFull(m, g, nbuf, h)
  {
  }

  // While processes hold at most h buffers that are not on their way into the
  // log, bget() always finds one more exactly if there are more than LOGSIZE + h.
  // This is for any log but a very short one, on which log_write() panics first.
  lemma BuffersExactly(m: Measure, g: Layout, nbuf: nat, h: nat)
    requires g.limit == 3 * g.maxop && g.maxop > 0 && g.limit + 1 < g.words && 1 <= g.size && g.limit <= g.size + 1
    ensures NeverFull(m, g, nbuf, h) <==> nbuf > g.limit + h
  {
    if nbuf > g.limit + h {
      forall d, tr, others: set<nat> | |others| <= h ensures !FillsCache(m, g, d, tr, others, nbuf) {
        NeverFills(m, g, d, tr, others, nbuf);
      }
    } else {
      CacheFills(m, g, nbuf, h);
    }
  }

  // The three demands of a log that never panics and never overflows: LOGSIZE + 1
  // blocks of log, and LOGSIZE + 1 buffers beside those that processes hold
  // otherwise.
  lemma NothingPanicsExactly(g: Layout, nbuf: nat, h: nat)
    requires g.limit == 3 * g.maxop && g.maxop > 0 && g.limit + 1 < g.words && g.size > 0
    ensures NeverPanics(Calls, g) && StaysInLog(Calls, g) && NeverFull(Calls, g, nbuf, h) <==>
      g.size > g.limit && nbuf > g.limit + h
  {
    PanicFreeExactly(g);
    if g.size > g.limit {
      StaysInLogExactly(Calls, g);
      BuffersExactly(Calls, g, nbuf, h);
    }
  }
}
