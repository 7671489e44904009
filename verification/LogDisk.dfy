// The block writes of log.c, and recovery from any part of them.
module LogDisk {
  import opened Slots

  // A block is BSIZE / sizeof(int) words.
  type Block = seq<int>

  type Disk = seq<Block>

  // Words per block, log.start, log.size, LOGSIZE and MAXOPBLOCKS.
  datatype Layout = Layout(words: nat, start: nat, size: nat, limit: nat, maxop: nat)

  datatype Write = Write(b: nat, data: Block)

  // initlog() refuses a header that does not fit in a block.
  ghost predicate Formatted(g: Layout, d: Disk) {
    && g.limit + 1 < g.words && 1 <= g.size && g.start + g.size <= |d|
    && forall b :: 0 <= b < |d| ==> |d[b]| == g.words
  }

  // The blocks that are not part of the log.
  predicate Home(g: Layout, b: nat, n: nat) {
    b < n && !(g.start <= b < g.start + g.size)
  }

  ghost predicate SameHome(g: Layout, d: Disk, e: Disk) {
    |d| == |e| && forall b: nat :: Home(g, b, |d|) ==> d[b] == e[b]
  }

  // ------------------------------------------------------------ disk writes

  function Put(d: Disk, w: Write): (r: Disk) {
    if w.b < |d| then d[w.b := w.data] else d
  }

  // The disk after the writes ws have reached it, in order.
  function Replay(d: Disk, ws: seq<Write>): (e: Disk)
    ensures |e| == |d|
  {
    if ws == [] then d else Put(Replay(d, ws[..|ws| - 1]), ws[|ws| - 1])
  }

  ghost predicate Sized(g: Layout, ws: seq<Write>) {
    forall i :: 0 <= i < |ws| ==> |ws[i].data| == g.words
  }

  ghost predicate Avoids(ws: seq<Write>, b: nat) {
    forall i :: 0 <= i < |ws| ==> ws[i].b != b
  }

  lemma {:induction false} ReplayConcat(d: Disk, a: seq<Write>, c: seq<Write>)
    ensures Replay(d, a + c) == Replay(Replay(d, a), c)
  {
    if c == [] {
      assert a + c == a;
    } else {
      ReplayConcat(d, a, c[..|c| - 1]);
      assert (a + c)[..|a + c| - 1] == a + c[..|c| - 1];
    }
  }

  lemma {:induction false} ReplayFormatted(g: Layout, d: Disk, ws: seq<Write>)
    requires Formatted(g, d) && Sized(g, ws)
    ensures Formatted(g, Replay(d, ws))
  {
    if ws != [] {
      ReplayFormatted(g, d, ws[..|ws| - 1]);
    }
  }

  lemma {:induction false} ReplayAvoids(d: Disk, ws: seq<Write>, b: nat)
    requires Avoids(ws, b) && b < |d|
    ensures Replay(d, ws)[b] == d[b]
  {
    if ws != [] {
      ReplayAvoids(d, ws[..|ws| - 1], b);
    }
  }

  // The last write to a block decides it.
  lemma {:induction false} ReplayLast(d: Disk, ws: seq<Write>, i: nat)
    requires i < |ws| && ws[i].b < |d| && Avoids(ws[i + 1..], ws[i].b)
    ensures Replay(d, ws)[ws[i].b] == ws[i].data
  {
    ReplayConcat(d, ws[..i + 1], ws[i + 1..]);
    assert ws == ws[..i + 1] + ws[i + 1..];
    assert ws[..i + 1][..i] == ws[..i];
    ReplayAvoids(Replay(d, ws[..i + 1]), ws[i + 1..], ws[i].b);
  }

  // Doing a list of writes again, after any part of it, ends in the same disk.
  lemma {:induction false} ReplayTwice(d: Disk, e: Disk, ws: seq<Write>)
    requires |d| == |e| && forall b: nat :: b < |d| && Avoids(ws, b) ==> d[b] == e[b]
    ensures Replay(d, ws) == Replay(e, ws)
  {
    forall b: nat | b < |d| ensures Replay(d, ws)[b] == Replay(e, ws)[b] {
      if Avoids(ws, b) {
        ReplayAvoids(d, ws, b);
        ReplayAvoids(e, ws, b);
      } else {
        var i := LastTo(ws, b);
        ReplayLast(d, ws, i);
        ReplayLast(e, ws, i);
      }
    }
  }

  lemma {:induction false} LastTo(ws: seq<Write>, b: nat) returns (i: nat)
    requires !Avoids(ws, b)
    ensures i < |ws| && ws[i].b == b && Avoids(ws[i + 1..], b)
  {
    i := |ws| - 1;
    if ws[i].b != b {
      assert !Avoids(ws[..i], b);
      var j := LastTo(ws[..i], b);
      assert ws[j + 1..] == ws[..i][j + 1..] + [ws[i]];
      i := j;
    }
  }

  // -------------------------------------------------------------- the header

  // read_head() accepts this header.
  ghost predicate HeadOk(g: Layout, d: Disk)
    requires Formatted(g, d)
  {
    && 0 <= d[g.start][0] <= g.limit && d[g.start][0] < g.size
    && forall i :: 1 <= i <= d[g.start][0] ==> d[g.start][i] >= 0 && Home(g, d[g.start][i], |d|)
  }

  ghost function HeadBlocks(g: Layout, d: Disk): (bs: seq<nat>)
    requires Formatted(g, d) && HeadOk(g, d)
    ensures |bs| == d[g.start][0]
  {
    seq(d[g.start][0], i requires 0 <= i < d[g.start][0] => d[g.start][i + 1] as nat)
  }

  // write_head(): the count and that many block numbers; the rest stays.
  function HeadBlock(was: Block, bs: seq<nat>): (h: Block)
    requires |bs| < |was|
    ensures |h| == |was| && h[0] == |bs|
    ensures forall i :: 0 <= i < |bs| ==> h[i + 1] == bs[i]
    ensures forall i :: |bs| < i < |was| ==> h[i] == was[i]
  {
    [|bs|] + seq(|bs|, i requires 0 <= i < |bs| => bs[i]) + was[|bs| + 1..]
  }

  // No transaction is in the log.
  ghost predicate Clean(g: Layout, d: Disk) {
    Formatted(g, d) && d[g.start][0] == 0
  }

  // Block numbers that a transaction may name.
  ghost predicate LogFits(g: Layout, bs: seq<nat>, n: nat) {
    |bs| <= g.limit && |bs| < g.size && Distinct(bs) && forall i :: 0 <= i < |bs| ==> Home(g, bs[i], n)
  }

  // ---------------------------------------------------- what is written when

  // write_log()
  function LogWrites(g: Layout, view: Disk, bs: seq<nat>): (ws: seq<Write>)
    requires forall i :: 0 <= i < |bs| ==> bs[i] < |view|
    ensures |ws| == |bs|
  {
    seq(|bs|, i requires 0 <= i < |bs| => Write(g.start + 1 + i, view[bs[i]]))
  }

  // install_trans()
  function Installs(g: Layout, d: Disk, bs: seq<nat>): (ws: seq<Write>)
    requires g.start + |bs| < |d|
    ensures |ws| == |bs|
  {
    seq(|bs|, i requires 0 <= i < |bs| => Write(bs[i], d[g.start + 1 + i]))
  }

  // recover_from_log()
  ghost function RecoverWrites(g: Layout, d: Disk): (ws: seq<Write>)
    requires Formatted(g, d) && HeadOk(g, d)
  {
    Installs(g, d, HeadBlocks(g, d)) + [Write(g.start, HeadBlock(d[g.start], []))]
  }

  // The disk when the log is written and the header names its blocks.
  ghost function Logged(g: Layout, d: Disk, view: Disk, bs: seq<nat>): (r: Disk)
    requires Formatted(g, d) && LogFits(g, bs, |d|) && |view| == |d|
  {
    Put(Replay(d, LogWrites(g, view, bs)), Write(g.start, HeadBlock(d[g.start], bs)))
  }

  // write_log() and write_head()
  ghost function Prelude(g: Layout, d: Disk, view: Disk, bs: seq<nat>): (ws: seq<Write>)
    requires Formatted(g, d) && LogFits(g, bs, |d|) && |view| == |d|
    ensures |ws| == |bs| + 1
  {
    LogWrites(g, view, bs) + [Write(g.start, HeadBlock(d[g.start], bs))]
  }

  // commit()
  ghost function CommitWrites(g: Layout, d: Disk, view: Disk, bs: seq<nat>): (ws: seq<Write>)
    requires Formatted(g, d) && LogFits(g, bs, |d|) && Formatted(g, view) && |view| == |d|
  {
    if bs == [] then [] else
      LoggedHead(g, d, view, bs);
      Prelude(g, d, view, bs) + RecoverWrites(g, Logged(g, d, view, bs))
  }

  // The disk a completed recovery leaves.
  ghost function Recovered(g: Layout, d: Disk): (r: Disk)
    requires Formatted(g, d) && HeadOk(g, d)
  {
    Replay(d, RecoverWrites(g, d))
  }

  // Recovery of d completes with the home blocks of goal.
  ghost predicate RecoversTo(g: Layout, d: Disk, goal: Disk) {
    Formatted(g, d) && HeadOk(g, d) && SameHome(g, Recovered(g, d), goal)
  }

  // ------------------------------------------------------------------ proofs

  lemma LoggedAt(g: Layout, d: Disk, view: Disk, bs: seq<nat>)
    requires Formatted(g, d) && LogFits(g, bs, |d|) && Formatted(g, view) && |view| == |d|
    ensures var e := Logged(g, d, view, bs);
      && |e| == |d| && e[g.start] == HeadBlock(d[g.start], bs)
      && (forall i :: 0 <= i < |bs| ==> e[g.start + 1 + i] == view[bs[i]])
      && SameHome(g, d, e)
  {
    var ws := LogWrites(g, view, bs);
    var e := Logged(g, d, view, bs);
    forall i | 0 <= i < |bs| ensures e[g.start + 1 + i] == view[bs[i]] {
      ReplayLast(d, ws, i);
    }
    forall b: nat | Home(g, b, |d|) ensures d[b] == e[b] {
      ReplayAvoids(d, ws, b);
    }
  }

  lemma LoggedHead(g: Layout, d: Disk, view: Disk, bs: seq<nat>)
    requires Formatted(g, d) && LogFits(g, bs, |d|) && Formatted(g, view) && |view| == |d|
    ensures var e := Logged(g, d, view, bs); Formatted(g, e) && HeadOk(g, e) && HeadBlocks(g, e) == bs
  {
    LoggedFormatted(g, d, view, bs);
    LoggedAt(g, d, view, bs);
    HeadOfBlock(g, Logged(g, d, view, bs), d[g.start], bs);
  }

  lemma LoggedFormatted(g: Layout, d: Disk, view: Disk, bs: seq<nat>)
    requires Formatted(g, d) && LogFits(g, bs, |d|) && Formatted(g, view) && |view| == |d|
    ensures Formatted(g, Logged(g, d, view, bs))
  {
    ReplayFormatted(g, d, LogWrites(g, view, bs));
  }

  // read_head() gives back what write_head() has written.
  lemma HeadOfBlock(g: Layout, d: Disk, was: Block, bs: seq<nat>)
    requires Formatted(g, d) && LogFits(g, bs, |d|) && |was| == g.words && d[g.start] == HeadBlock(was, bs)
    ensures HeadOk(g, d) && HeadBlocks(g, d) == bs
  {
    var h := d[g.start];
    forall i | 1 <= i <= h[0] ensures h[i] >= 0 && Home(g, h[i], |d|) {
      assert h[i] == bs[i - 1];
    }
  }

  // Recovery is decided by the log and by the blocks it does not name.
  lemma SameRecovery(g: Layout, d: Disk, e: Disk)
    requires Formatted(g, d) && HeadOk(g, d) && Formatted(g, e) && |d| == |e|
    requires forall b: nat :: g.start <= b < g.start + g.size ==> e[b] == d[b]
    ensures HeadOk(g, e) && RecoverWrites(g, e) == RecoverWrites(g, d)
  {
    assert e[g.start] == d[g.start];
  }

  lemma StoppedInstalling(g: Layout, d: Disk, k: nat)
    requires Formatted(g, d) && HeadOk(g, d) && k <= |HeadBlocks(g, d)|
    ensures var ws := RecoverWrites(g, d); var e := Replay(d, ws[..k]);
      && (forall b: nat :: g.start <= b < g.start + g.size ==> e[b] == d[b])
      && Replay(e, ws) == Replay(d, ws)
  {
    var ws := RecoverWrites(g, d);
    var e := Replay(d, ws[..k]);
    forall b: nat | g.start <= b < g.start + g.size ensures e[b] == d[b] {
      InstallsAvoid(g, d, b);
      ReplayAvoids(d, ws[..k], b);
    }
    forall b: nat | b < |d| && Avoids(ws, b) ensures e[b] == d[b] {
      ReplayAvoids(d, ws[..k], b);
    }
    ReplayTwice(e, d, ws);
  }

  // A recovery stopped anywhere leaves a disk that recovers to the same disk.
  lemma RecoveryRestarts(g: Layout, d: Disk, k: nat)
    requires Formatted(g, d) && HeadOk(g, d) && k <= |RecoverWrites(g, d)|
    ensures var e := Replay(d, RecoverWrites(g, d)[..k]);
      Formatted(g, e) && HeadOk(g, e) && Recovered(g, e) == Recovered(g, d)
  {
    var ws := RecoverWrites(g, d);
    var e := Replay(d, ws[..k]);
    if k <= |HeadBlocks(g, d)| {
      RecoverSized(g, d);
      ReplayFormatted(g, d, ws[..k]);
      StoppedInstalling(g, d, k);
      SameRecovery(g, d, e);
    } else {
      assert ws[..k] == ws;
      RecoveredClean(g, d);
      RecoverAgain(g, e);
    }
  }

  lemma StillRecovers(g: Layout, d: Disk, k: nat, goal: Disk)
    requires RecoversTo(g, d, goal) && k <= |RecoverWrites(g, d)|
    ensures RecoversTo(g, Replay(d, RecoverWrites(g, d)[..k]), goal)
  {
    RecoveryRestarts(g, d, k);
  }

  lemma InstallsAvoid(g: Layout, d: Disk, b: nat)
    requires Formatted(g, d) && HeadOk(g, d) && g.start <= b < g.start + g.size
    ensures Avoids(Installs(g, d, HeadBlocks(g, d)), b)
  {
    var bs := HeadBlocks(g, d);
    forall i | 0 <= i < |bs| ensures bs[i] != b {
      assert bs[i] == d[g.start][i + 1];
    }
  }

  lemma RecoverSized(g: Layout, d: Disk)
    requires Formatted(g, d) && HeadOk(g, d)
    ensures Sized(g, RecoverWrites(g, d))
  {
  }

  lemma RecoveredClean(g: Layout, d: Disk)
    requires Formatted(g, d) && HeadOk(g, d)
    ensures Clean(g, Recovered(g, d)) && HeadOk(g, Recovered(g, d))
  {
    var ws := RecoverWrites(g, d);
    RecoverSized(g, d);
    ReplayFormatted(g, d, ws);
    ReplayLast(d, ws, |ws| - 1);
  }

  // Recovering a clean disk changes nothing.
  lemma RecoverAgain(g: Layout, d: Disk)
    requires Clean(g, d)
    ensures HeadOk(g, d) && Recovered(g, d) == d
  {
    var ws := RecoverWrites(g, d);
    assert ws == [Write(g.start, HeadBlock(d[g.start], []))];
    assert HeadBlock(d[g.start], []) == d[g.start];
    assert ws[..0] == [] && Replay(d, ws) == Put(d, ws[0]);
  }

  lemma RecoveredInstalled(g: Layout, d: Disk, i: nat)
    requires Formatted(g, d) && HeadOk(g, d) && Distinct(HeadBlocks(g, d)) && i < |HeadBlocks(g, d)|
    ensures HeadBlocks(g, d)[i] < |d| && Recovered(g, d)[HeadBlocks(g, d)[i]] == d[g.start + 1 + i]
  {
    var ws := RecoverWrites(g, d);
    var bs := HeadBlocks(g, d);
    assert bs[i] == d[g.start][i + 1];
    assert ws[i] == Write(bs[i], d[g.start + 1 + i]);
    ReplayLast(d, ws, i);
  }

  lemma RecoveredElsewhere(g: Layout, d: Disk, b: nat)
    requires Formatted(g, d) && HeadOk(g, d) && Home(g, b, |d|) && b !in HeadBlocks(g, d)
    ensures Recovered(g, d)[b] == d[b]
  {
    ReplayAvoids(d, RecoverWrites(g, d), b);
  }

  // The home blocks after a transaction.
  ghost function Committed(g: Layout, d: Disk, view: Disk, bs: seq<nat>): (r: Disk)
    requires |view| == |d|
  {
    seq(|d|, b requires 0 <= b < |d| => if b in bs then view[b] else d[b])
  }

  lemma LoggedRecovers(g: Layout, d: Disk, view: Disk, bs: seq<nat>)
    requires Formatted(g, d) && LogFits(g, bs, |d|) && Formatted(g, view) && |view| == |d|
    ensures RecoversTo(g, Logged(g, d, view, bs), Committed(g, d, view, bs))
  {
    LoggedHead(g, d, view, bs);
    LoggedAt(g, d, view, bs);
    var e := Logged(g, d, view, bs);
    forall b: nat | Home(g, b, |d|) ensures Recovered(g, e)[b] == Committed(g, d, view, bs)[b] {
      if b in bs {
        var i :| 0 <= i < |bs| && bs[i] == b;
        RecoveredInstalled(g, e, i);
      } else {
        RecoveredElsewhere(g, e, b);
      }
    }
  }

  // A machine that stops again and again: each restart does the first ks[i]
  // writes of a recovery.
  ghost function Restarts(g: Layout, d: Disk, ks: seq<nat>): (e: Disk)
    requires Formatted(g, d) && HeadOk(g, d)
    ensures Formatted(g, e) && HeadOk(g, e) && Recovered(g, e) == Recovered(g, d)
    decreases |ks|
  {
    if ks == [] then d
    else
      var ws := RecoverWrites(g, d);
      var k := if ks[0] < |ws| then ks[0] else |ws|;
      RecoveryRestarts(g, d, k);
      Restarts(g, Replay(d, ws[..k]), ks[1..])
  }

  // A header with a positive count.
  predicate IsHeader(g: Layout, w: Write) {
    w.b == g.start && |w.data| > 0 && w.data[0] > 0
  }

  ghost predicate HeaderReached(g: Layout, ws: seq<Write>) {
    exists i :: 0 <= i < |ws| && IsHeader(g, ws[i])
  }

  lemma StoppedEarly(g: Layout, d: Disk, view: Disk, bs: seq<nat>, k: nat)
    requires Clean(g, d) && LogFits(g, bs, |d|) && Formatted(g, view) && |view| == |d| && k <= |bs|
    ensures var ws := LogWrites(g, view, bs)[..k];
      !HeaderReached(g, ws) && RecoversTo(g, Replay(d, ws), d)
  {
    var ws := LogWrites(g, view, bs)[..k];
    ReplayFormatted(g, d, ws);
    forall b: nat | b == g.start || Home(g, b, |d|) ensures Replay(d, ws)[b] == d[b] {
      ReplayAvoids(d, ws, b);
    }
    RecoverAgain(g, Replay(d, ws));
  }

  // From its header on, a commit is the recovery of the disk it has made.
  lemma CommitSplit(g: Layout, d: Disk, view: Disk, bs: seq<nat>, j: nat)
    requires Formatted(g, d) && LogFits(g, bs, |d|) && Formatted(g, view) && |view| == |d| && bs != []
    requires |bs| + 1 + j <= |CommitWrites(g, d, view, bs)|
    ensures var m := Logged(g, d, view, bs); var ws := CommitWrites(g, d, view, bs)[..|bs| + 1 + j];
      && Formatted(g, m) && HeadOk(g, m) && j <= |RecoverWrites(g, m)| && HeaderReached(g, ws)
      && Replay(d, ws) == Replay(m, RecoverWrites(g, m)[..j])
  {
    hide *;
    CommitForm(g, d, view, bs);
    var first := Prelude(g, d, view, bs);
    var rest := RecoverWrites(g, Logged(g, d, view, bs));
    TakeConcat(first, rest, j);
    PreludeMakes(g, d, view, bs);
    PreludeReaches(g, d, view, bs, rest[..j]);
    ReplayConcat(d, first, rest[..j]);
  }

  lemma CommitForm(g: Layout, d: Disk, view: Disk, bs: seq<nat>)
    requires Formatted(g, d) && LogFits(g, bs, |d|) && Formatted(g, view) && |view| == |d| && bs != []
    ensures var m := Logged(g, d, view, bs);
      Formatted(g, m) && HeadOk(g, m) && CommitWrites(g, d, view, bs) == Prelude(g, d, view, bs) + RecoverWrites(g, m)
  {
    LoggedHead(g, d, view, bs);
  }

  lemma PreludeReaches(g: Layout, d: Disk, view: Disk, bs: seq<nat>, more: seq<Write>)
    requires Formatted(g, d) && LogFits(g, bs, |d|) && |view| == |d| && bs != []
    ensures HeaderReached(g, Prelude(g, d, view, bs) + more)
  {
    assert IsHeader(g, (Prelude(g, d, view, bs) + more)[|bs|]);
  }

  lemma PreludeMakes(g: Layout, d: Disk, view: Disk, bs: seq<nat>)
    requires Formatted(g, d) && LogFits(g, bs, |d|) && |view| == |d|
    ensures Replay(d, Prelude(g, d, view, bs)) == Logged(g, d, view, bs)
  {
    var ws := Prelude(g, d, view, bs);
    assert ws[..|ws| - 1] == LogWrites(g, view, bs);
  }

  lemma StoppedLate(g: Layout, d: Disk, view: Disk, bs: seq<nat>, k: nat)
    requires Formatted(g, d) && LogFits(g, bs, |d|) && Formatted(g, view) && |view| == |d|
    requires bs != [] && |bs| < k <= |CommitWrites(g, d, view, bs)|
    ensures var ws := CommitWrites(g, d, view, bs)[..k];
      HeaderReached(g, ws) && RecoversTo(g, Replay(d, ws), Committed(g, d, view, bs))
  {
    hide *;
    var j := k - |bs| - 1;
    var m := Logged(g, d, view, bs);
    LoggedRecovers(g, d, view, bs);
    CommitSplit(g, d, view, bs, j);
    StillRecovers(g, m, j, Committed(g, d, view, bs));
  }

  lemma CommitIsRecovery(g: Layout, d: Disk, view: Disk, bs: seq<nat>)
    requires Formatted(g, d) && LogFits(g, bs, |d|) && Formatted(g, view) && |view| == |d| && bs != []
    ensures var m := Logged(g, d, view, bs);
      Formatted(g, m) && HeadOk(g, m) && Replay(d, CommitWrites(g, d, view, bs)) == Recovered(g, m)
  {
    CommitForm(g, d, view, bs);
    PreludeMakes(g, d, view, bs);
    ReplayConcat(d, Prelude(g, d, view, bs), RecoverWrites(g, Logged(g, d, view, bs)));
  }

  lemma RecoveryCompletes(g: Layout, d: Disk, goal: Disk)
    requires RecoversTo(g, d, goal)
    ensures Clean(g, Recovered(g, d)) && SameHome(g, Recovered(g, d), goal)
  {
    RecoveredClean(g, d);
  }

  // A commit that is not stopped.
  lemma CommitCompletes(g: Layout, d: Disk, view: Disk, bs: seq<nat>)
    requires Clean(g, d) && LogFits(g, bs, |d|) && Formatted(g, view) && |view| == |d|
    ensures var e := Replay(d, CommitWrites(g, d, view, bs));
      Clean(g, e) && SameHome(g, e, Committed(g, d, view, bs))
  {
    if bs != [] {
      LoggedRecovers(g, d, view, bs);
      CommitIsRecovery(g, d, view, bs);
      RecoveryCompletes(g, Logged(g, d, view, bs), Committed(g, d, view, bs));
    }
  }

  // Up to the header nothing of the transaction can be seen; from the header on
  // all of it, whatever happens later.
  lemma CommitStopped(g: Layout, d: Disk, view: Disk, bs: seq<nat>, k: nat)
    requires Clean(g, d) && LogFits(g, bs, |d|) && Formatted(g, view) && |view| == |d|
    requires k <= |CommitWrites(g, d, view, bs)|
    ensures var ws := CommitWrites(g, d, view, bs)[..k];
      && (HeaderReached(g, ws) <==> k > |bs|)
      && RecoversTo(g, Replay(d, ws), if k > |bs| then Committed(g, d, view, bs) else d)
  {
    if k <= |bs| {
      StoppedEarly(g, d, view, bs, k);
      assert CommitWrites(g, d, view, bs)[..k] == LogWrites(g, view, bs)[..k];
    } else {
      assert bs != [];
      StoppedLate(g, d, view, bs, k);
    }
  }

  // Crash atomicity: commit() stops after any number of its writes, any number
  // of recoveries stop after any number of theirs, and one recovery completes.
  lemma CrashAtomic(g: Layout, d: Disk, view: Disk, bs: seq<nat>, k: nat, ks: seq<nat>)
    requires Clean(g, d) && LogFits(g, bs, |d|) && Formatted(g, view) && |view| == |d|
    requires k <= |CommitWrites(g, d, view, bs)|
    ensures var ws := CommitWrites(g, d, view, bs)[..k]; var e := Replay(d, ws);
      && Formatted(g, e) && HeadOk(g, e) && Clean(g, Recovered(g, Restarts(g, e, ks)))
      && SameHome(g, Recovered(g, Restarts(g, e, ks)),
           if HeaderReached(g, ws) then Committed(g, d, view, bs) else d)
  {
    CommitStopped(g, d, view, bs, k);
    RecoveredClean(g, Restarts(g, Replay(d, CommitWrites(g, d, view, bs)[..k]), ks));
  }
}
