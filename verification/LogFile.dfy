// log.c statement by statement, on the buffer cache.
module LogFile {
  import opened Slots
  import opened Wrappers
  import opened LogDisk
  import opened LogMachine
  import opened BufCache
  import opened LogAdmission

  lemma FormattedCopy(g: Layout, view: Disk, d: Disk, dst: nat, src: nat)
    requires Formatted(g, view) && Formatted(g, d) && src < |view|
    ensures var w := Write(dst, view[src]); Formatted(g, Put(view, w)) && Formatted(g, Put(d, w))
  {
  }

  lemma CommitReady(g: Layout, s: State, nbuf: nat)
    requires Inv(g, s) && s.committing && EnoughBuffers(g, nbuf)
    ensures Clean(g, s.disk) && LogFits(g, s.lh, |s.disk|) && s.open == [] && |Elems(s.lh)| < nbuf
    ensures Apply(g, s, Commit) == CommitDone(g, s) && Inv(g, CommitDone(g, s))
  {
    CommitKeeps(g, s);
    ElemsBound(s.lh);
  }

  lemma BeginFacts(g: Layout, s: State)
    requires Inv(g, s)
    ensures var t := Apply(g, s, BeginOp);
      && t == (if Admits(g, s) then s.(open := s.open + [Op(0, {}, None)]) else s)
      && Inv(g, t) && InHand(t.open) == InHand(s.open)
  {
    BegunHands(s.open);
  }

  lemma EndFacts(g: Layout, s: State, o: nat)
    requires Inv(g, s) && Enabled(g, s, EndOp(o))
    ensures o < |s.open| && !s.committing
    ensures var t := Ended(s, o); t == Apply(g, s, EndOp(o)) && Inv(g, t) && InHand(t.open) == InHand(s.open)
  {
    EndedHands(s.open, o);
    NeverEndsCommitting(g, s, o);
  }

  lemma NoElems()
    ensures Elems([]) == {}
  {
  }

  lemma TestFacts(g: Layout, s: State, o: nat, b: nat, data: Block)
    requires Inv(g, s) && Enabled(g, s, LogTest(o, b, data))
    ensures o < |s.open| && b < |s.disk| == |s.view| && !TooBig(g, s) && b !in InHand(s.open)
    ensures var t := Tested(s, o, b, data);
      Apply(g, s, LogTest(o, b, data)) == t && Inv(g, t) && InHand(t.open) == InHand(s.open) + {b}
  {
    TestedHands(s.open, o, b);
    TestedKeeps(g, s, o, b, data);
  }

  lemma AppendFacts(g: Layout, s: State, o: nat, b: nat)
    requires Inv(g, s) && Enabled(g, s, LogAppend(o, b))
    ensures o < |s.open| && b in InHand(s.open) && (b in s.lh || |s.lh| < g.limit)
    ensures var t := Appended(s, o, b);
      && Apply(g, s, LogAppend(o, b)) == t && Inv(g, t)
      && InHand(t.open) == InHand(s.open) - {b} && Elems(t.lh) == Elems(s.lh) + {b}
  {
    AppendedHands(g, s.open, |s.disk|, o, b);
    AppendedKeeps(g, s, o, b);
    AbsorbMembers(s.lh, b);
  }

  lemma NoOps()
    ensures InHand([]) == {}
  {
  }

  lemma FormattedPut(g: Layout, d: Disk, w: Write)
    requires Formatted(g, d) && |w.data| == g.words
    ensures Formatted(g, Put(d, w))
  {
  }

  lemma ReplayNext(d: Disk, ws: seq<Write>, k: nat)
    requires k < |ws|
    ensures Replay(d, ws[..k + 1]) == Put(Replay(d, ws[..k]), ws[k])
  {
    assert ws[..k + 1][..k] == ws[..k];
  }

  // The k-th turn of write_log() finds its block as the operations left it.
  lemma LogTurnFinds(g: Layout, view: Disk, bs: seq<nat>, k: nat)
    requires Formatted(g, view) && LogFits(g, bs, |view|) && k < |bs|
    ensures g.start + 1 + k < |view| && g.start + 1 + k !in bs
    ensures forall i :: 0 <= i < |bs| ==> bs[i] < |view|
    ensures var ws := LogWrites(g, view, bs);
      ws[k] == Write(g.start + 1 + k, Replay(view, ws[..k])[bs[k]])
  {
    ReplayAvoids(view, LogWrites(g, view, bs)[..k], bs[k]);
  }

  // The k-th turn of install_trans() finds its log block as it was.
  lemma InstallTurnFinds(g: Layout, d: Disk, bs: seq<nat>, k: nat)
    requires Formatted(g, d) && k < |bs| < g.size && forall i :: 0 <= i < |bs| ==> Home(g, bs[i], |d|)
    ensures var ws := Installs(g, d, bs);
      ws[k] == Write(bs[k], Replay(d, ws[..k])[g.start + 1 + k])
  {
    ReplayAvoids(d, Installs(g, d, bs)[..k], g.start + 1 + k);
  }

  // The last write of a recovery clears the header it started from.
  lemma ClearEnds(g: Layout, d: Disk)
    requires Formatted(g, d) && HeadOk(g, d)
    ensures var ws := Installs(g, d, HeadBlocks(g, d)); var e := Replay(d, ws);
      && e[g.start] == d[g.start]
      && RecoverWrites(g, d) == ws + [Write(g.start, HeadBlock(e[g.start], []))]
      && Recovered(g, d) == Put(e, Write(g.start, HeadBlock(e[g.start], [])))
  {
    var ws := Installs(g, d, HeadBlocks(g, d));
    InstallsAvoid(g, d, g.start);
    ReplayAvoids(d, ws, g.start);
    assert RecoverWrites(g, d)[..|ws|] == ws;
  }

  class Log {
    const cache: BufferCache
    const g: Layout
    const block: array<nat>
    var n: nat
    var outstanding: nat
    var committing: bool
    ghost var open: seq<Op>

    // log.lh
    ghost function Lh(): (r: seq<nat>)
      reads this`n, block
      requires n <= block.Length
    {
      block[..n]
    }

    lemma Bounds()
      requires Idle()
      ensures 1 <= g.size && g.start + g.size <= cache.disk.Length == |cache.view|
    {
      cache.UpToDate(g.start);
    }

    // The cache and the blocks are in order.
    ghost predicate Sound()
      reads this`n, cache, cache.bufs, cache.next, cache.prev, cache.disk
    {
      && cache.Valid() && cache.Calm() && 2 <= cache.bufs.Length
      && Formatted(g, cache.disk[..]) && Formatted(g, cache.view)
      && n <= block.Length == g.limit && block != cache.next && block != cache.prev
    }

    // No buffer is locked, as during recovery and commit.
    ghost predicate Idle()
      reads this`n, cache, cache.bufs, cache.next, cache.prev, cache.disk
    {
      Sound() && cache.held == {} && |cache.dirty| < cache.bufs.Length
    }

    // initlog(), with the superblock's fields in l.
    constructor (c: BufferCache, l: Layout)
      requires c.Valid() && c.Calm() && c.held == {} && c.dirty == {}
      requires Formatted(l, c.disk[..]) && HeadOk(l, c.disk[..])
      requires 2 <= c.bufs.Length && EnoughBuffers(l, c.bufs.Length)
      modifies c, c.bufs, c.next, c.prev, c.disk
      ensures Valid() && cache == c && g == l && fresh(block)
      ensures Abs() == Booted(Recovered(l, old(c.disk[..])))
      ensures c.trace == old(c.trace) + RecoverWrites(l, old(c.disk[..]))
    {
      cache, g := c, l;
      block := new nat[l.limit](_ => 0);
      n, outstanding, committing, open := 0, 0, false, [];
      new;
      Boot();
    }

    // recover_from_log()
    method Boot()
      requires Idle() && cache.dirty == {} && HeadOk(g, cache.disk[..]) && EnoughBuffers(g, cache.bufs.Length)
      requires open == [] && outstanding == 0 && !committing
      modifies this`n, block, cache, cache.bufs, cache.next, cache.prev, cache.disk
      ensures Valid() && Abs() == Booted(Recovered(g, old(cache.disk[..])))
      ensures cache.trace == old(cache.trace) + RecoverWrites(g, old(cache.disk[..]))
    {
      RecoveredClean(g, cache.disk[..]);
      ReadHead();
      InstallAndClear();
    }

    // read_head()
    method ReadHead()
      requires Idle() && cache.dirty == {} && HeadOk(g, cache.disk[..])
      modifies this`n, block, cache, cache.bufs, cache.next, cache.prev, cache.disk
      ensures Idle() && cache.dirty == {} && HeadOk(g, cache.disk[..]) && Lh() == HeadBlocks(g, cache.disk[..])
      ensures cache.disk[..] == old(cache.disk[..]) && cache.trace == old(cache.trace)
    {
      NothingDirty();
      hide BufferCache.Valid, BufferCache.Calm, BufferCache.Holds, Formatted;
      var b := ReadOne(g.start);
      ghost var disk := cache.disk[..];
      CopyHead(cache.bufs[b].data, disk);
      cache.Brelse(b, g.start);
    }

    method CopyHead(h: Block, ghost disk: Disk)
      requires Formatted(g, disk) && HeadOk(g, disk) && h == disk[g.start] && block.Length == g.limit
      modifies this`n, block
      ensures n <= block.Length && Lh() == HeadBlocks(g, disk)
    {
      n := h[0];
      var i := 0;
      while i < n
        modifies block
        invariant 0 <= i <= n && forall j :: 0 <= j < i ==> block[j] == h[j + 1]
      {
        block[i] := h[i + 1];
        i := i + 1;
      }
      assert Lh() == HeadBlocks(g, disk);
    }

    ghost function Abs(): (r: State)
      requires n <= block.Length
      reads this, block, cache`view, cache.disk
    {
      State(cache.disk[..], cache.view, Lh(), open, committing)
    }

    // Between the steps: the dirty buffers are those of the logged blocks, and
    // the locked ones those that operations have in hand.
    ghost predicate Valid()
      reads this, block, cache, cache.bufs, cache.next, cache.prev, cache.disk
    {
      && Sound() && Inv(g, Abs()) && outstanding == |open| && EnoughBuffers(g, cache.bufs.Length)
      && cache.dirty == Elems(Lh()) && cache.held == InHand(open) && cache.HeldRead()
    }

    lemma ValidInv()
      requires Valid()
      ensures n <= block.Length && Inv(g, Abs())
    {
    }

    // The end of a turn in write_log() and in install_trans(): copy between two
    // locked buffers, write the block, release both.
    method CopyHeld(to: nat, dst: nat, from: nat, src: nat)
      requires cache.Valid() && cache.Calm() && cache.held == {dst, src} && dst != src
      requires cache.Holds(to, dst) && cache.Holds(from, src) && from < cache.bufs.Length
      requires cache.bufs[from].data == cache.view[src] && dst < cache.disk.Length && src < cache.disk.Length
      requires src in cache.dirty || cache.view[src] == cache.disk[src]
      modifies cache, cache.bufs, cache.next, cache.prev, cache.disk
      ensures cache.Valid() && cache.Calm() && cache.held == {} && cache.dirty == old(cache.dirty) - {dst}
      ensures var w := Write(dst, old(cache.view)[src]);
        && cache.view == Put(old(cache.view), w) && cache.disk[..] == Put(old(cache.disk[..]), w)
        && cache.trace == old(cache.trace) + [w]
    {
      hide BufferCache.Valid, BufferCache.Calm, BufferCache.Holds, Updated;
      cache.UpToDate(dst);
      cache.SetData(to, cache.bufs[from].data, dst);
      cache.Bwrite(to, dst);
      ReleaseTwo(from, src, to, dst);
    }

    method ReleaseTwo(i: nat, b: nat, j: nat, c: nat)
      requires cache.Valid() && cache.Calm() && cache.held == {c, b} && c != b
      requires cache.Holds(i, b) && cache.Holds(j, c) && b < cache.disk.Length && c < cache.disk.Length
      requires |cache.view| == cache.disk.Length
      requires b in cache.dirty || cache.view[b] == cache.disk[b]
      requires c in cache.dirty || cache.view[c] == cache.disk[c]
      modifies cache`held, cache`lru, cache.bufs, cache.next, cache.prev
      ensures cache.Valid() && cache.Calm() && cache.held == {}
    {
      hide BufferCache.Valid, BufferCache.Calm, BufferCache.Holds, Updated;
      cache.Brelse(i, b);
      cache.Brelse(j, c);
    }

    // bread() while no other buffer is locked.
    method ReadOne(b: nat) returns (i: nat)
      requires cache.Valid() && cache.Calm() && cache.held == {} && |cache.dirty| < cache.bufs.Length
      requires b < cache.disk.Length
      modifies cache`index, cache`held, cache`dirty, cache`trace, cache.bufs, cache.disk
      ensures cache.Valid() && cache.Calm() && cache.held == {b} && cache.dirty == old(cache.dirty)
      ensures cache.disk[..] == old(cache.disk[..]) && cache.trace == old(cache.trace)
      ensures i < cache.bufs.Length && cache.Holds(i, b) && cache.bufs[i].data == cache.view[b]
    {
      hide BufferCache.Valid, BufferCache.Calm, BufferCache.Holds, BufferCache.Obtainable;
      assert cache.dirty + cache.held == cache.dirty;
      cache.RoomToRead(b);
      var asleep;
      i, asleep := cache.Bread(1, b);
    }

    // Two bread() in a row. The second block is pinned, or nothing is.
    method ReadTwo(b: nat, c: nat) returns (i: nat, j: nat)
      requires cache.Valid() && cache.Calm() && cache.held == {} && b != c
      requires |cache.dirty| < cache.bufs.Length && 2 <= cache.bufs.Length
      requires b < cache.disk.Length && c < cache.disk.Length && (c in cache.dirty || cache.dirty == {})
      modifies cache`index, cache`held, cache`dirty, cache`trace, cache.bufs, cache.disk
      ensures cache.Valid() && cache.Calm() && cache.held == {b, c} && cache.dirty == old(cache.dirty)
      ensures cache.disk[..] == old(cache.disk[..]) && cache.trace == old(cache.trace)
      ensures i < cache.bufs.Length && cache.Holds(i, b) && cache.bufs[i].data == cache.view[b]
      ensures j < cache.bufs.Length && cache.Holds(j, c) && cache.bufs[j].data == cache.view[c]
    {
      hide BufferCache.Valid, BufferCache.Calm, BufferCache.Holds, BufferCache.Obtainable;
      i := ReadOne(b);
      if cache.dirty == {} {
        assert cache.dirty + cache.held == {b};
        cache.RoomToRead(c);
      } else {
        cache.DirtyIsObtainable(c);
      }
      var asleep;
      j, asleep := cache.Bread(1, c);
    }

    // The turn of the loop in write_log(): block src of the cache goes to the
    // log block dst.
    method LogBlock(dst: nat, src: nat)
      requires Idle() && dst < cache.disk.Length && src < cache.disk.Length && dst != src
      requires src in cache.dirty && dst !in cache.dirty
      modifies cache, cache.bufs, cache.next, cache.prev, cache.disk
      ensures Idle() && cache.dirty == old(cache.dirty)
      ensures var w := Write(dst, old(cache.view)[src]);
        && cache.view == Put(old(cache.view), w) && cache.disk[..] == Put(old(cache.disk[..]), w)
        && cache.trace == old(cache.trace) + [w]
    {
      hide BufferCache.Valid, BufferCache.Calm, BufferCache.Holds, Formatted, Put;
      cache.UpToDate(src);
      FormattedCopy(g, cache.view, cache.disk[..], dst, src);
      var to, from := ReadTwo(dst, src);
      CopyHeld(to, dst, from, src);
    }

    // The turn of the loop in install_trans(): log block src goes home to dst.
    method InstallBlock(src: nat, dst: nat)
      requires Idle() && dst < cache.disk.Length && src < cache.disk.Length && dst != src
      requires src !in cache.dirty && (dst in cache.dirty || cache.dirty == {})
      modifies cache, cache.bufs, cache.next, cache.prev, cache.disk
      ensures Idle() && cache.dirty == old(cache.dirty) - {dst}
      ensures var w := Write(dst, old(cache.view)[src]);
        && cache.view == Put(old(cache.view), w) && cache.disk[..] == Put(old(cache.disk[..]), w)
        && cache.trace == old(cache.trace) + [w]
    {
      hide BufferCache.Valid, BufferCache.Calm, BufferCache.Holds, Formatted, Put;
      cache.UpToDate(src);
      FormattedCopy(g, cache.view, cache.disk[..], dst, src);
      SubsetSize(cache.dirty - {dst}, cache.dirty);
      var lbuf, dbuf := ReadTwo(src, dst);
      CopyHeld(dbuf, dst, lbuf, src);
    }

    // The block writes ws have been done since the cache and the disk were
    // view and disk.
    ghost predicate Since(view: Disk, disk: Disk, trace: seq<Write>, ws: seq<Write>)
      reads cache`view, cache`trace, cache.disk
    {
      cache.view == Replay(view, ws) && cache.disk[..] == Replay(disk, ws) && cache.trace == trace + ws
    }

    lemma SinceNext(view: Disk, disk: Disk, trace: seq<Write>, ws: seq<Write>, k: nat)
      requires k < |ws| && cache.trace == trace + ws[..k] + [ws[k]]
      requires cache.view == Put(Replay(view, ws[..k]), ws[k]) && cache.disk[..] == Put(Replay(disk, ws[..k]), ws[k])
      ensures Since(view, disk, trace, ws[..k + 1])
    {
      ReplayNext(view, ws, k);
      ReplayNext(disk, ws, k);
    }

    method LogTurn(tail: nat, ghost view: Disk, ghost disk: Disk, ghost trace: seq<Write>)
      requires Idle() && Formatted(g, view) && |view| == cache.disk.Length
      requires LogFits(g, Lh(), |view|) && cache.dirty == Elems(Lh()) && tail < n
      requires Since(view, disk, trace, LogWrites(g, view, Lh())[..tail])
      modifies cache, cache.bufs, cache.next, cache.prev, cache.disk
      ensures Idle() && cache.dirty == old(cache.dirty)
      ensures Since(view, disk, trace, LogWrites(g, view, Lh())[..tail + 1])
    {
      hide BufferCache.Valid, BufferCache.Calm, Formatted, Put, Replay, LogWrites, LogFits;
      LogTurnFinds(g, view, Lh(), tail);
      assert Lh()[tail] in Lh();
      LogBlock(g.start + tail + 1, block[tail]);
      SinceNext(view, disk, trace, LogWrites(g, view, Lh()), tail);
    }

    // write_log()
    method WriteLog()
      requires Idle() && LogFits(g, Lh(), cache.disk.Length) && cache.dirty == Elems(Lh())
      modifies cache, cache.bufs, cache.next, cache.prev, cache.disk
      ensures Idle() && cache.dirty == old(cache.dirty) && |old(cache.view)| == cache.disk.Length
      ensures Since(old(cache.view), old(cache.disk[..]), old(cache.trace), LogWrites(g, old(cache.view), Lh()))
    {
      ghost var bs, view, disk, trace := Lh(), cache.view, cache.disk[..], cache.trace;
      cache.UpToDate(g.start);
      ghost var ws := LogWrites(g, view, bs);
      assert ws[..0] == [];
      var tail := 0;
      while tail < n
        modifies cache, cache.bufs, cache.next, cache.prev, cache.disk
        invariant 0 <= tail <= n && Idle() && cache.dirty == Elems(bs)
        invariant Since(view, disk, trace, ws[..tail])
      {
        LogTurn(tail, view, disk, trace);
        tail := tail + 1;
      }
      assert ws[..n] == ws;
    }

    // The header as write_head() fills it in.
    method FillHead(was: Block) returns (h: Block)
      requires n <= block.Length && n < |was|
      ensures h == HeadBlock(was, Lh())
    {
      h := was[0 := n];
      var i := 0;
      while i < n
        invariant 0 <= i <= n && |h| == |was| && h[0] == n
        invariant forall j :: 0 <= j < i ==> h[j + 1] == block[j]
        invariant forall j :: i < j < |was| ==> h[j] == was[j]
      {
        h := h[i + 1 := block[i]];
        i := i + 1;
      }
      assert h == HeadBlock(was, Lh());
    }

    method WriteAndRelease(b: nat, data: Block, ghost blockno: nat)
      requires cache.Valid() && cache.Calm() && cache.held == {blockno} && cache.Holds(b, blockno)
      requires blockno < cache.disk.Length
      modifies cache, cache.bufs, cache.next, cache.prev, cache.disk
      ensures cache.Valid() && cache.Calm() && cache.held == {} && cache.dirty == old(cache.dirty) - {blockno}
      ensures var w := Write(blockno, data);
        && cache.view == Put(old(cache.view), w) && cache.disk[..] == Put(old(cache.disk[..]), w)
        && cache.trace == old(cache.trace) + [w]
    {
      hide BufferCache.Valid, BufferCache.Calm, BufferCache.Holds, Updated;
      cache.UpToDate(blockno);
      cache.SetData(b, data, blockno);
      cache.Bwrite(b, blockno);
      cache.Brelse(b, blockno);
    }

    // write_head()
    method WriteHead()
      requires Idle() && g.start !in cache.dirty
      modifies cache, cache.bufs, cache.next, cache.prev, cache.disk
      ensures Idle() && cache.dirty == old(cache.dirty)
      ensures g.start < |old(cache.view)| && n < |old(cache.view)[g.start]|
      ensures var w := Write(g.start, HeadBlock(old(cache.view)[g.start], Lh()));
        && cache.view == Put(old(cache.view), w) && cache.disk[..] == Put(old(cache.disk[..]), w)
        && cache.trace == old(cache.trace) + [w]
    {
      ghost var w := Write(g.start, HeadBlock(cache.view[g.start], Lh()));
      FormattedPut(g, cache.view, w);
      FormattedPut(g, cache.disk[..], w);
      cache.UpToDate(g.start);
      assert n < |cache.view[g.start]|;
      hide BufferCache.Valid, BufferCache.Calm, BufferCache.Holds, Formatted, Put;
      var b := ReadOne(g.start);
      var h := FillHead(cache.bufs[b].data);
      WriteAndRelease(b, h, g.start);
    }

    // What install_trans() finds pinned: its own blocks, or after a restart
    // nothing.
    ghost predicate Pinned(bs: seq<nat>)
      reads cache`dirty
    {
      cache.dirty == {} || (Distinct(bs) && cache.dirty == Elems(bs))
    }

    ghost predicate AllHome(bs: seq<nat>, len: nat) {
      |bs| < g.size && forall i :: 0 <= i < |bs| ==> Home(g, bs[i], len)
    }

    method InstallTurn(tail: nat, ghost view: Disk, ghost disk: Disk, ghost trace: seq<Write>)
      requires Idle() && Formatted(g, view) && |view| == cache.disk.Length
      requires AllHome(Lh(), |view|) && tail < n && Pinned(Lh()[tail..])
      requires Since(view, disk, trace, Installs(g, view, Lh())[..tail])
      modifies cache, cache.bufs, cache.next, cache.prev, cache.disk
      ensures Idle() && Pinned(Lh()[tail + 1..])
      ensures Since(view, disk, trace, Installs(g, view, Lh())[..tail + 1])
    {
      hide BufferCache.Valid, BufferCache.Calm, Formatted, Put, Replay, Installs, AllHome, Home;
      Bounds();
      AllHomeHas(Lh(), |view|);
      InstallTurnFinds(g, view, Lh(), tail);
      PinnedFacts(tail);
      ghost var pinned := cache.dirty;
      InstallBlock(g.start + tail + 1, block[tail]);
      SinceNext(view, disk, trace, Installs(g, view, Lh()), tail);
      StillPinned(tail, pinned);
    }

    lemma AllHomeHas(bs: seq<nat>, len: nat)
      requires AllHome(bs, len)
      ensures |bs| < g.size && forall i :: 0 <= i < |bs| ==> Home(g, bs[i], len)
    {
    }

    lemma PinnedFacts(tail: nat)
      requires n <= block.Length && tail < n && AllHome(Lh(), |cache.view|) && Pinned(Lh()[tail..])
      ensures block[tail] in cache.dirty || cache.dirty == {}
      ensures g.start + tail + 1 !in cache.dirty && block[tail] < |cache.view| && block[tail] != g.start + tail + 1
    {
      assert Lh()[tail] == block[tail] == Lh()[tail..][0];
      forall x | x in Lh()[tail..] ensures Home(g, x, |cache.view|) {
      }
    }

    lemma StillPinned(tail: nat, was: set<nat>)
      requires n <= block.Length && tail < n && cache.dirty == was - {block[tail]}
      requires was == {} || (Distinct(Lh()[tail..]) && was == Elems(Lh()[tail..]))
      ensures Pinned(Lh()[tail + 1..])
    {
      var q := Lh()[tail..];
      assert q[0] == block[tail] && q[1..] == Lh()[tail + 1..] && q == [q[0]] + q[1..];
    }

    // install_trans()
    method InstallTrans()
      requires Idle() && AllHome(Lh(), cache.disk.Length) && Pinned(Lh())
      modifies cache, cache.bufs, cache.next, cache.prev, cache.disk
      ensures Idle() && cache.dirty == {}
      ensures g.start + n < |old(cache.view)|
      ensures Since(old(cache.view), old(cache.disk[..]), old(cache.trace), Installs(g, old(cache.view), Lh()))
    {
      ghost var bs, view, disk, trace := Lh(), cache.view, cache.disk[..], cache.trace;
      cache.UpToDate(g.start);
      ghost var ws := Installs(g, view, bs);
      assert ws[..0] == [] && bs[0..] == bs;
      var tail := 0;
      while tail < n
        modifies cache, cache.bufs, cache.next, cache.prev, cache.disk
        invariant 0 <= tail <= n && Idle() && Pinned(bs[tail..])
        invariant Since(view, disk, trace, ws[..tail])
      {
        InstallTurn(tail, view, disk, trace);
        tail := tail + 1;
      }
      assert ws[..n] == ws;
    }

    // The blocks of the log are the same in the cache and on disk.
    lemma LogUpToDate(bs: seq<nat>)
      requires Idle() && Pinned(bs) && AllHome(bs, cache.disk.Length)
      ensures |cache.view| == cache.disk.Length && Installs(g, cache.view, bs) == Installs(g, cache.disk[..], bs)
    {
      cache.AllUpToDate();
      forall b: nat | g.start <= b < g.start + g.size ensures cache.view[b] == cache.disk[b] {
        assert b !in cache.dirty;
      }
    }

    lemma NothingDirty()
      requires cache.Valid() && cache.held == {} && cache.dirty == {}
      ensures cache.view == cache.disk[..]
    {
      cache.AllUpToDate();
    }

    lemma HeadFits(d: Disk)
      requires Formatted(g, d) && HeadOk(g, d)
      ensures AllHome(HeadBlocks(g, d), |d|)
    {
      HeadIsHome(g, d);
    }

    // The common end of commit() and recover_from_log().
    method InstallAndClear()
      requires Idle() && HeadOk(g, cache.disk[..]) && Lh() == HeadBlocks(g, cache.disk[..]) && Pinned(Lh())
      modifies this`n, cache, cache.bufs, cache.next, cache.prev, cache.disk
      ensures Idle() && n == 0 && cache.dirty == {} && cache.view == cache.disk[..]
      ensures cache.disk[..] == Recovered(g, old(cache.disk[..]))
      ensures cache.trace == old(cache.trace) + RecoverWrites(g, old(cache.disk[..]))
    {
      hide BufferCache.Valid, BufferCache.Calm, Formatted, HeadOk, HeadBlocks, RecoverWrites, Recovered, Installs,
        AllHome, Pinned;
      ghost var disk := cache.disk[..];
      Bounds();
      HeadFits(disk);
      LogUpToDate(Lh());
      ClearEnds(g, disk);
      InstallTrans();
      NothingDirty();
      n := 0;
      assert Lh() == [];
      WriteHead();
      NothingDirty();
    }

    // commit()
    method CommitTransaction()
      requires Idle() && Clean(g, cache.disk[..]) && LogFits(g, Lh(), cache.disk.Length) && cache.dirty == Elems(Lh())
      modifies this`n, cache, cache.bufs, cache.next, cache.prev, cache.disk
      ensures Idle() && n == 0 && cache.dirty == {} && cache.view == cache.disk[..]
      ensures |old(cache.view)| == cache.disk.Length
      ensures var ws := CommitWrites(g, old(cache.disk[..]), old(cache.view), old(Lh()));
        cache.disk[..] == Replay(old(cache.disk[..]), ws) && cache.trace == old(cache.trace) + ws
    {
      cache.UpToDate(g.start);
      if n > 0 {
        hide Formatted, Clean, LogFits, CommitWrites;
        CommitSome();
      } else {
        NothingDirty();
      }
    }

    method CommitSome()
      requires Idle() && n > 0 && LogFits(g, Lh(), cache.disk.Length) && cache.dirty == Elems(Lh())
      modifies this`n, cache, cache.bufs, cache.next, cache.prev, cache.disk
      ensures Idle() && n == 0 && cache.dirty == {} && cache.view == cache.disk[..]
      ensures |old(cache.view)| == cache.disk.Length
      ensures var ws := CommitWrites(g, old(cache.disk[..]), old(cache.view), old(Lh()));
        cache.disk[..] == Replay(old(cache.disk[..]), ws) && cache.trace == old(cache.trace) + ws
    {
      hide BufferCache.Valid, BufferCache.Calm, Formatted, LogFits, HeadOk, HeadBlocks, CommitWrites, Logged, Prelude,
        RecoverWrites, Recovered, Replay, Elems;
      ghost var bs, view, disk, trace := Lh(), cache.view, cache.disk[..], cache.trace;
      Bounds();
      CommitParts(g, disk, view, bs);
      FitsDistinct(g, bs, |disk|);
      WriteLogAndHead();
      InstallAndClear();
      assert cache.trace == trace + (Prelude(g, disk, view, bs) + RecoverWrites(g, Logged(g, disk, view, bs)));
    }

    method WriteLogAndHead()
      requires Idle() && LogFits(g, Lh(), cache.disk.Length) && cache.dirty == Elems(Lh())
      modifies cache, cache.bufs, cache.next, cache.prev, cache.disk
      ensures Idle() && cache.dirty == old(cache.dirty) && |old(cache.view)| == cache.disk.Length
      ensures cache.disk[..] == Logged(g, old(cache.disk[..]), old(cache.view), Lh())
      ensures cache.trace == old(cache.trace) + Prelude(g, old(cache.disk[..]), old(cache.view), Lh())
    {
      hide BufferCache.Valid, BufferCache.Calm, Formatted, LogWrites, Replay, Put, LogFits, HeadBlock, Elems;
      ghost var bs, view, disk := Lh(), cache.view, cache.disk[..];
      Bounds();
      cache.UpToDate(g.start);
      HeaderUnlogged(g, view, bs);
      WriteLog();
      WriteHead();
    }

    // ------------------------------------------------------------- operations

    // One turn of begin_op(): the operation is admitted or must sleep.
    method BeginOperation() returns (admitted: bool)
      requires Valid()
      modifies this`outstanding, this`open
      ensures Valid() && Abs() == Apply(g, old(Abs()), BeginOp)
      ensures admitted == Admits(g, old(Abs()))
    {
      hide Inv, Apply, InHand, Elems, Sound, EnoughBuffers, BufferCache.HeldRead;
      ValidInv();
      ghost var s := Abs();
      BeginFacts(g, s);
      if committing {
        admitted := false;
      } else if n + (outstanding + 1) * g.maxop > g.limit {
        admitted := false;
      } else {
        outstanding := outstanding + 1;
        open := open + [Op(0, {}, None)];
        admitted := true;
      }
      assert Abs() == Apply(g, s, BeginOp);
    }

    // The two tests of log_write(), without the lock.
    method PassesTests() returns (ok: bool)
      ensures ok <==> n < g.limit && n < g.size - 1 && outstanding >= 1
    {
      if n >= g.limit || n >= g.size - 1 {
        return false;
      }
      if outstanding < 1 {
        return false;
      }
      ok := true;
    }

    // The rest of log_write(), under the lock.
    method Record(b: nat, ghost blockno: nat)
      requires cache.Valid() && cache.Holds(b, blockno) && n <= block.Length
      requires blockno in Lh() || n < block.Length
      requires block != cache.next && block != cache.prev
      modifies this`n, block, cache`dirty, cache.bufs
      ensures cache.Valid() && n <= block.Length && (old(cache.Calm()) ==> cache.Calm())
      ensures forall i: nat, c: nat :: old(cache.Holds(i, c)) ==> cache.Holds(i, c)
      ensures old(cache.HeldRead()) ==> cache.HeldRead()
      ensures Lh() == Absorb(old(Lh()), blockno) && cache.dirty == old(cache.dirty) + {blockno}
    {
      var i := FindLogged(cache.bufs[b].blockno);
      RecordBlock(i, cache.bufs[b].blockno);
      cache.SetDirty(b, blockno);
    }

    // The loop of log_write().
    method FindLogged(blockno: nat) returns (i: nat)
      requires n <= block.Length
      ensures i <= n && (i < n ==> block[i] == blockno) && (i == n ==> blockno !in Lh())
    {
      i := 0;
      while i < n
        invariant 0 <= i <= n && forall j :: 0 <= j < i ==> block[j] != blockno
      {
        if block[i] == blockno {
          break;
        }
        i := i + 1;
      }
    }

    method RecordBlock(i: nat, blockno: nat)
      requires n <= block.Length && i <= n && i < block.Length
      requires (i < n ==> block[i] == blockno) && (i == n ==> blockno !in Lh())
      modifies this`n, block
      ensures n <= block.Length && Lh() == Absorb(old(Lh()), blockno)
    {
      ghost var was := Lh();
      block[i] := blockno;
      if i == n {
        n := n + 1;
        assert Lh() == was + [blockno];
      } else {
        assert was[i] == blockno;
        assert Lh() == was;
      }
    }

    // bread(), change the data, and the tests of log_write(), within operation o.
    method TestBlock(ghost o: nat, b: nat, data: Block)
      requires Valid() && Enabled(g, Abs(), LogTest(o, b, data)) && cache.Obtainable(b)
      modifies this`open, cache, cache.bufs, cache.next, cache.prev, cache.disk
      ensures Valid() && Abs() == Apply(g, old(Abs()), LogTest(o, b, data)) && cache.trace == old(cache.trace)
    {
      hide Inv, Apply, Enabled, Formatted, Elems, InHand, BufferCache.Valid, BufferCache.Calm, BufferCache.Holds,
        BufferCache.HeldRead, BufferCache.Obtainable;
      ghost var s := Abs();
      TestFacts(g, s, o, b, data);
      var i := ChangeBlock(b, data);
      var ok := PassesTests();
      assert ok;
      open := Tested(s, o, b, data).open;
      assert Abs() == Tested(s, o, b, data);
      StillFormatted();
    }

    method ChangeBlock(b: nat, data: Block) returns (i: nat)
      requires cache.Valid() && cache.Calm() && b < cache.disk.Length && cache.Obtainable(b) && b !in cache.held
      modifies cache, cache.bufs, cache.next, cache.prev, cache.disk
      ensures cache.Valid() && cache.Calm() && cache.held == old(cache.held) + {b} && cache.Holds(i, b)
      ensures old(cache.HeldRead()) ==> cache.HeldRead()
      ensures b < |old(cache.view)| && cache.view == old(cache.view)[b := data]
      ensures cache.dirty == old(cache.dirty)
      ensures cache.disk[..] == old(cache.disk[..]) && cache.trace == old(cache.trace)
    {
      hide BufferCache.Valid, BufferCache.Calm, BufferCache.Holds, BufferCache.Obtainable, BufferCache.HeldRead,
        Updated;
      cache.UpToDate(b);
      var asleep;
      i, asleep := cache.Bread(1, b);
      cache.SetData(i, data, b);
    }

    lemma StillFormatted()
      requires n <= block.Length && Inv(g, Abs())
      ensures Formatted(g, cache.disk[..]) && Formatted(g, cache.view)
    {
    }

    // The rest of log_write(), and brelse(), within operation o. The search is
    // for the pointer that the caller has.
    method AppendBlock(ghost o: nat, b: nat)
      requires Valid() && Enabled(g, Abs(), LogAppend(o, b))
      modifies this`n, this`open, block, cache, cache.bufs, cache.next, cache.prev, cache.disk
      ensures Valid() && Abs() == Apply(g, old(Abs()), LogAppend(o, b)) && cache.trace == old(cache.trace)
    {
      hide Inv, Apply, Enabled, Formatted, Elems, InHand, Absorb, BufferCache.Calm, BufferCache.Holds,
        BufferCache.HeldRead, Ok, BufferCache.ListOk;
      ghost var s := Abs();
      AppendFacts(g, s, o, b);
      var i := cache.Find(1, b);
      cache.OwnBuffer(b, i);
      RecordAndRelease(i, b);
      open := Appended(s, o, b).open;
      assert Abs() == Appended(s, o, b);
      StillFormatted();
    }

    method RecordAndRelease(i: nat, b: nat)
      requires cache.Valid() && cache.Calm() && cache.Holds(i, b) && n <= block.Length
      requires b in Lh() || n < block.Length
      requires block != cache.next && block != cache.prev
      modifies this`n, block, cache`held, cache`dirty, cache`lru, cache.bufs, cache.next, cache.prev
      ensures cache.Valid() && cache.Calm() && cache.held == old(cache.held) - {b} && n <= block.Length
      ensures old(cache.HeldRead()) ==> cache.HeldRead()
      ensures Lh() == Absorb(old(Lh()), b) && cache.dirty == old(cache.dirty) + {b}
    {
      hide BufferCache.Valid, BufferCache.Calm, BufferCache.Holds, BufferCache.HeldRead, Updated, Absorb;
      Record(i, b);
      cache.Brelse(i, b);
    }

    // What a process sees of a block that nobody has in hand.
    method ReadBlock(b: nat) returns (data: Block)
      requires Valid() && b < cache.disk.Length && b !in InHand(open) && cache.Obtainable(b)
      modifies cache, cache.bufs, cache.next, cache.prev, cache.disk
      ensures Valid() && Abs() == old(Abs()) && cache.trace == old(cache.trace)
      ensures data == Abs().view[b]
    {
      hide Inv, Formatted, Elems, InHand, BufferCache.Valid, BufferCache.Calm, BufferCache.Holds,
        BufferCache.HeldRead, BufferCache.Obtainable;
      data := Fetch(b);
    }

    method Fetch(b: nat) returns (data: Block)
      requires cache.Valid() && cache.Calm() && b < cache.disk.Length && cache.Obtainable(b) && b !in cache.held
      modifies cache, cache.bufs, cache.next, cache.prev, cache.disk
      ensures cache.Valid() && cache.Calm() && cache.held == old(cache.held) && cache.dirty == old(cache.dirty)
      ensures old(cache.HeldRead()) ==> cache.HeldRead()
      ensures cache.view == old(cache.view) && cache.disk[..] == old(cache.disk[..]) && cache.trace == old(cache.trace)
      ensures b < |cache.view| && data == cache.view[b]
    {
      hide BufferCache.Valid, BufferCache.Calm, BufferCache.Holds, BufferCache.Obtainable, BufferCache.HeldRead,
        Updated;
      cache.UpToDate(b);
      var i, asleep := cache.Bread(1, b);
      data := cache.bufs[i].data;
      cache.Brelse(i, b);
    }

    // end_op() up to the release of the lock. Its panic is not reached.
    method EndOperation(ghost o: nat)
      requires Valid() && Enabled(g, Abs(), EndOp(o))
      modifies this`outstanding, this`committing, this`open
      ensures Valid() && Abs() == Apply(g, old(Abs()), EndOp(o))
    {
      hide Inv, Apply, Enabled, InHand, Elems, Sound, EnoughBuffers, BufferCache.HeldRead;
      ValidInv();
      ghost var s := Abs();
      EndFacts(g, s, o);
      ghost var rest := open[..o] + open[o + 1..];
      outstanding := outstanding - 1;
      assert !committing;
      if outstanding == 0 {
        committing := true;
      }
      open := rest;
      assert Abs() == Ended(s, o);
    }

    // The rest of end_op() for the last operation.
    method CommitAll()
      requires Valid() && Enabled(g, Abs(), Commit)
      modifies this`n, this`committing, cache, cache.bufs, cache.next, cache.prev, cache.disk
      ensures Valid() && Abs() == Apply(g, old(Abs()), Commit)
      ensures cache.trace == old(cache.trace) + Writes(g, old(Abs()), Commit)
    {
      hide Inv, Formatted, Clean, LogFits, CommitWrites, BufferCache.Valid, BufferCache.Calm, Elems, InHand,
        EnoughBuffers;
      ghost var t := Apply(g, Abs(), Commit);
      CommitReady(g, Abs(), cache.bufs.Length);
      NoOps();
      CommitTransaction();
      NoElems();
      committing := false;
      assert Abs() == t;
    }

    // One step of the machine.
    method Perform(st: Step)
      requires Valid() && Enabled(g, Abs(), st) && (st.LogTest? ==> cache.Obtainable(st.b))
      modifies this`n, this`outstanding, this`committing, this`open, block
      modifies cache, cache.bufs, cache.next, cache.prev, cache.disk
      ensures Valid() && Abs() == Apply(g, old(Abs()), st)
      ensures cache.trace == old(cache.trace) + Writes(g, old(Abs()), st)
    {
      hide Inv, Apply, Enabled, CommitWrites, Sound, BufferCache.Obtainable;
      match st {
        case BeginOp =>
          var admitted := BeginOperation();
        case LogTest(o, b, data) =>
          TestBlock(o, b, data);
        case LogAppend(o, b) =>
          AppendBlock(o, b);
        case EndOp(o) =>
          EndOperation(o);
        case Commit =>
          CommitAll();
      }
    }

    lemma FindsIt(st: Step)
      requires Valid() && FindsBuffer(Abs(), st, cache.bufs.Length) && st.LogTest?
      ensures cache.Obtainable(st.b)
    {
      hide Inv, Elems, InHand, BufferCache.Valid, BufferCache.Calm, BufferCache.Obtainable;
      if st.b in Lh() {
        cache.DirtyIsObtainable(st.b);
      } else {
        cache.RoomToRead(st.b);
      }
    }

    // A whole run in which bget() does not panic. Where it is cut off,
    // LogMachine.RunAtomic says what is left.
    method PerformAll(tr: seq<Step>)
      requires Valid() && CanRun(g, Abs(), tr) && BuffersLast(g, Abs(), tr, cache.bufs.Length)
      modifies this`n, this`outstanding, this`committing, this`open, block
      modifies cache, cache.bufs, cache.next, cache.prev, cache.disk
      ensures Valid() && Abs() == Exec(g, old(Abs()), tr)
      ensures cache.trace == old(cache.trace) + Trace(g, old(Abs()), tr)
      decreases |tr|
    {
      hide Valid, Abs, Inv, Apply, Enabled, Writes, FindsBuffer, BufferCache.Obtainable;
      if tr != [] {
        if tr[0].LogTest? {
          FindsIt(tr[0]);
        }
        Perform(tr[0]);
        PerformAll(tr[1..]);
      }
    }

    // Whatever the source does on a log of more than LOGSIZE blocks.
    method PerformSource(ghost m: Measure, tr: seq<Step>)
      requires Valid() && Room(m, g, Abs()) && SourceRun(m, g, Abs(), tr) && g.size > g.limit
      modifies this`n, this`outstanding, this`committing, this`open, block
      modifies cache, cache.bufs, cache.next, cache.prev, cache.disk
      ensures CanRun(g, old(Abs()), tr)
      ensures Valid() && Abs() == Exec(g, old(Abs()), tr)
      ensures cache.trace == old(cache.trace) + Trace(g, old(Abs()), tr)
    {
      hide Abs, Inv, Room, SourceRun, CanRun, FrugalRun, BuffersLast, Exec, Trace;
      SourceStays(m, g, Abs(), tr);
      FrugalBuffers(m, g, Abs(), tr, cache.bufs.Length);
      PerformAll(tr);
    }
  }

  // write_log() leaves the header block alone.
  lemma HeaderUnlogged(g: Layout, view: Disk, bs: seq<nat>)
    requires Formatted(g, view) && LogFits(g, bs, |view|)
    ensures Replay(view, LogWrites(g, view, bs))[g.start] == view[g.start]
    ensures g.start !in Elems(bs)
  {
    ReplayAvoids(view, LogWrites(g, view, bs), g.start);
  }

  lemma FitsDistinct(g: Layout, bs: seq<nat>, n: nat)
    requires LogFits(g, bs, n)
    ensures Distinct(bs)
  {
  }

  // Up to the header commit() is its own, from there on it is recovery.
  lemma CommitParts(g: Layout, d: Disk, view: Disk, bs: seq<nat>)
    requires Formatted(g, d) && LogFits(g, bs, |d|) && Formatted(g, view) && |view| == |d| && bs != []
    ensures var m := Logged(g, d, view, bs); var ws := CommitWrites(g, d, view, bs);
      && Formatted(g, m) && HeadOk(g, m) && HeadBlocks(g, m) == bs
      && ws == Prelude(g, d, view, bs) + RecoverWrites(g, m) && Replay(d, ws) == Recovered(g, m)
  {
    LoggedHead(g, d, view, bs);
    CommitIsRecovery(g, d, view, bs);
  }

  lemma HeadIsHome(g: Layout, d: Disk)
    requires Formatted(g, d) && HeadOk(g, d)
    ensures forall i :: 0 <= i < |HeadBlocks(g, d)| ==> Home(g, HeadBlocks(g, d)[i], |d|)
  {
    var bs := HeadBlocks(g, d);
    forall i | 0 <= i < |bs| ensures Home(g, bs[i], |d|) {
      assert bs[i] == d[g.start][i + 1];
    }
  }
}
