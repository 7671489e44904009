// The buffer cache of bio.c over the memory disk of memide.c.
module BufCache {
  import opened Slots
  import opened LogDisk
  import opened LruRing

  // refcnt counts the processes that hold the buffer or wait for its lock.
  datatype Buf = Buf(dev: nat, blockno: nat, valid: bool, dirty: bool, refcnt: nat, locked: bool, data: Block)

  // What bget() may take for another block.
  predicate Recyclable(b: Buf) {
    b.refcnt == 0 && !b.dirty
  }

  // A buffer that has never been used has dev 0; the others are for device 1.
  // A valid buffer has what bread() must return, and an invalid one stands for
  // a block that is the same on disk.
  ghost predicate BufOk(b: Buf, i: nat, disk: Disk, index: map<nat, nat>, view: Disk)
    requires |view| == |disk|
  {
    && (b.dev == 0 ==> !b.valid && !b.dirty && !b.locked && b.refcnt == 0)
    && (b.dev != 0 ==>
          && b.dev == 1 && b.blockno < |disk| && b.blockno in index && index[b.blockno] == i
          && (if b.valid then b.data == view[b.blockno] else !b.dirty && view[b.blockno] == disk[b.blockno])
          && (b.locked ==> b.refcnt > 0))
  }

  // index finds the buffer of each cached block; dirty and held are the blocks
  // whose buffer is dirty or locked. Any other block is up to date on disk.
  ghost predicate Ok(bufs: seq<Buf>, disk: Disk, index: map<nat, nat>, view: Disk, dirty: set<nat>, held: set<nat>) {
    && |view| == |disk|
    && (forall i :: 0 <= i < |bufs| ==> BufOk(bufs[i], i, disk, index, view))
    && (forall b :: b in index ==> index[b] < |bufs| && bufs[index[b]].dev == 1 && bufs[index[b]].blockno == b)
    && (forall b :: b in dirty <==> b in index && bufs[index[b]].dirty)
    && (forall b :: b in held <==> b in index && bufs[index[b]].locked)
    && (forall b :: 0 <= b < |disk| && b !in dirty && b !in held ==> view[b] == disk[b])
  }

  function With(s: set<nat>, b: nat, member: bool): (r: set<nat>) {
    if member then s + {b} else s - {b}
  }

  // A block of device 1 has at most one buffer.
  lemma AtMostOne(bufs: seq<Buf>, disk: Disk, index: map<nat, nat>, view: Disk, dirty: set<nat>, held: set<nat>,
                  i: nat, j: nat)
    requires Ok(bufs, disk, index, view, dirty, held) && i < |bufs| && j < |bufs|
    requires bufs[i].dev == bufs[j].dev != 0 && bufs[i].blockno == bufs[j].blockno
    ensures i == j
  {
    assert BufOk(bufs[i], i, disk, index, view) && BufOk(bufs[j], j, disk, index, view);
  }

  // A change of one buffer and of its block, as all operations but the reuse of
  // a buffer make it.
  lemma UpdateKeeps(bufs: seq<Buf>, disk: Disk, index: map<nat, nat>, view: Disk, dirty: set<nat>, held: set<nat>,
                    i: nat, nb: Buf, v: Block, e: Block)
    requires Ok(bufs, disk, index, view, dirty, held) && i < |bufs| && bufs[i].dev == nb.dev == 1
    requires bufs[i].blockno == nb.blockno < |disk|
    requires if nb.valid then nb.data == v else !nb.dirty && v == e
    requires (nb.locked ==> nb.refcnt > 0) && (nb.dirty || nb.locked || v == e)
    ensures var b := nb.blockno;
      Ok(bufs[i := nb], disk[b := e], index, view[b := v], With(dirty, b, nb.dirty), With(held, b, nb.locked))
  {
    var b := nb.blockno;
    assert BufOk(bufs[i], i, disk, index, view);
    var bufs2, disk2, view2 := bufs[i := nb], disk[b := e], view[b := v];
    forall j | 0 <= j < |bufs| ensures BufOk(bufs2[j], j, disk2, index, view2) {
      assert BufOk(bufs[j], j, disk, index, view);
    }
  }

  // Only the count or the lock of a buffer changes.
  lemma CountKeeps(bufs: seq<Buf>, disk: Disk, index: map<nat, nat>, view: Disk, dirty: set<nat>, held: set<nat>,
                   i: nat, refcnt: nat, locked: bool)
    requires Ok(bufs, disk, index, view, dirty, held) && i < |bufs| && bufs[i].dev == 1
    requires locked ==> refcnt > 0
    requires locked || !bufs[i].locked || bufs[i].dirty || view[bufs[i].blockno] == disk[bufs[i].blockno]
    ensures Ok(bufs[i := bufs[i].(refcnt := refcnt, locked := locked)], disk, index, view, dirty,
              With(held, bufs[i].blockno, locked))
    ensures locked == bufs[i].locked ==> With(held, bufs[i].blockno, locked) == held
  {
    var b := bufs[i].blockno;
    assert BufOk(bufs[i], i, disk, index, view);
    UpdateKeeps(bufs, disk, index, view, dirty, held, i,
      bufs[i].(refcnt := refcnt, locked := locked), view[b], disk[b]);
    assert view[b := view[b]] == view && disk[b := disk[b]] == disk && With(dirty, b, bufs[i].dirty) == dirty;
  }

  // Only buffer b has changed.
  predicate Updated(was: seq<Buf>, now: seq<Buf>, b: nat, nb: Buf) {
    b < |was| && now == was[b := nb]
  }

  lemma HeldOk(bufs: seq<Buf>, disk: Disk, index: map<nat, nat>, view: Disk, dirty: set<nat>, held: set<nat>, i: nat)
    requires Ok(bufs, disk, index, view, dirty, held) && i < |bufs|
    ensures |view| == |disk| && BufOk(bufs[i], i, disk, index, view)
    ensures bufs[i].dev == 1 ==>
      (bufs[i].dirty <==> bufs[i].blockno in dirty) && (bufs[i].locked <==> bufs[i].blockno in held)
  {
    assert BufOk(bufs[i], i, disk, index, view);
  }

  lemma NotIndexed(bufs: seq<Buf>, disk: Disk, index: map<nat, nat>, view: Disk, dirty: set<nat>, held: set<nat>,
                   b: nat)
    requires Ok(bufs, disk, index, view, dirty, held)
    requires forall i :: 0 <= i < |bufs| ==> !(bufs[i].dev == 1 && bufs[i].blockno == b)
    ensures b !in index
  {
  }

  // The buffer i is taken for block b.
  lemma RecycleKeeps(bufs: seq<Buf>, disk: Disk, index: map<nat, nat>, view: Disk, dirty: set<nat>, held: set<nat>,
                     i: nat, b: nat)
    requires Ok(bufs, disk, index, view, dirty, held) && i < |bufs| && Recyclable(bufs[i])
    requires b < |disk| && b !in index
    ensures var nb := Buf(1, b, false, false, 1, false, bufs[i].data);
      Ok(bufs[i := nb], disk, Reindexed(bufs, index, i, b), view, dirty, held)
  {
    var nb := Buf(1, b, false, false, 1, false, bufs[i].data);
    var index2 := Reindexed(bufs, index, i, b);
    assert BufOk(bufs[i], i, disk, index, view);
    assert b !in dirty && b !in held;
    var bufs2 := bufs[i := nb];
    forall j | 0 <= j < |bufs| ensures BufOk(bufs2[j], j, disk, index2, view) {
      assert BufOk(bufs[j], j, disk, index, view);
    }
  }

  ghost function Reindexed(bufs: seq<Buf>, index: map<nat, nat>, i: nat, b: nat): (r: map<nat, nat>)
    requires i < |bufs|
  {
    (if bufs[i].dev == 1 then index - {bufs[i].blockno} else index)[b := i]
  }

  ghost predicate HoldsIn(bufs: seq<Buf>, index: map<nat, nat>, held: set<nat>, i: nat, b: nat) {
    && b in held && b in index && index[b] == i
    && i < |bufs| && bufs[i].locked && bufs[i].dev == 1 && bufs[i].blockno == b && bufs[i].valid
  }

  ghost predicate AllRead(bufs: seq<Buf>, index: map<nat, nat>, held: set<nat>) {
    forall b :: b in held ==> b in index && HoldsIn(bufs, index, held, index[b], b)
  }

  // Only the buffer of b has been locked or released.
  lemma StillRead(was: seq<Buf>, wasIndex: map<nat, nat>, wasHeld: set<nat>,
                  bufs: seq<Buf>, index: map<nat, nat>, held: set<nat>, b: nat, i: nat)
    requires AllRead(was, wasIndex, wasHeld) && held <= wasHeld + {b}
    requires b in held ==> HoldsIn(bufs, index, held, i, b)
    requires forall j: nat, c: nat ::
      c != b && HoldsIn(was, wasIndex, wasHeld, j, c) ==> HoldsIn(bufs, index, held, j, c)
    ensures AllRead(bufs, index, held)
  {
    forall c | c in held && c != b ensures c in index && HoldsIn(bufs, index, held, index[c], c) {
      assert HoldsIn(was, wasIndex, wasHeld, wasIndex[c], c);
    }
  }

  // Reading block b into the buffer n disturbs no other locked buffer.
  lemma OthersHeld(bufs: seq<Buf>, index: map<nat, nat>, held: set<nat>, n: nat, nb: Buf, b: nat, i: nat, c: nat,
                   held2: set<nat>)
    requires n < |bufs| && (if b in index then index[b] == n && bufs[n].blockno == b else !bufs[n].locked)
    requires held <= held2
    requires bufs[n].dev == 1 ==> bufs[n].blockno in index && index[bufs[n].blockno] == n
    requires HoldsIn(bufs, index, held, i, c) && c != b
    ensures var index2 := if b in index then index else Reindexed(bufs, index, n, b);
      HoldsIn(bufs[n := nb], index2, held2, i, c) && bufs[n := nb][i] == bufs[i]
  {
  }

  // What bread() relies on when it has not looked for a buffer yet.
  lemma BeforeRead(bufs: seq<Buf>, disk: Disk, index: map<nat, nat>, view: Disk, dirty: set<nat>, held: set<nat>,
                   b: nat)
    requires Ok(bufs, disk, index, view, dirty, held)
    ensures b in index ==> index[b] < |bufs| && bufs[index[b]].blockno == b && (bufs[index[b]].locked <==> b in held)
    ensures b !in index ==> b !in held
    ensures forall i :: 0 <= i < |bufs| && bufs[i].dev == 1 ==> bufs[i].blockno in index && index[bufs[i].blockno] == i
    ensures forall i :: 0 <= i < |bufs| && Recyclable(bufs[i]) ==> !bufs[i].locked
  {
    forall i | 0 <= i < |bufs|
      ensures bufs[i].dev == 1 ==> bufs[i].blockno in index && index[bufs[i].blockno] == i
      ensures Recyclable(bufs[i]) ==> !bufs[i].locked
    {
      assert BufOk(bufs[i], i, disk, index, view);
    }
  }

  // No process waits for a buffer.
  ghost predicate NoWaiters(bufs: seq<Buf>) {
    forall i :: 0 <= i < |bufs| ==> bufs[i].refcnt == if bufs[i].locked then 1 else 0
  }

  ghost function Blocknos(bufs: seq<Buf>, n: nat): (r: set<nat>)
    requires n <= |bufs|
  {
    set i | 0 <= i < n :: bufs[i].blockno
  }

  lemma {:induction false} BlocknosCount(bufs: seq<Buf>, disk: Disk, index: map<nat, nat>, view: Disk, n: nat)
    requires |view| == |disk| && n <= |bufs|
    requires forall i :: 0 <= i < |bufs| ==> BufOk(bufs[i], i, disk, index, view) && bufs[i].dev != 0
    ensures |Blocknos(bufs, n)| == n
  {
    if n == 0 {
      assert Blocknos(bufs, n) == {};
    } else {
      BlocknosCount(bufs, disk, index, view, n - 1);
      assert BufOk(bufs[n - 1], n - 1, disk, index, view);
      assert Blocknos(bufs, n) == Blocknos(bufs, n - 1) + {bufs[n - 1].blockno};
      forall i | 0 <= i < n - 1 ensures bufs[i].blockno != bufs[n - 1].blockno {
        assert BufOk(bufs[i], i, disk, index, view);
      }
    }
  }

  // With fewer dirty and locked blocks than buffers, bget() finds a buffer.
  lemma SomeRecyclable(bufs: seq<Buf>, disk: Disk, index: map<nat, nat>, view: Disk, dirty: set<nat>, held: set<nat>)
    requires Ok(bufs, disk, index, view, dirty, held) && NoWaiters(bufs) && |dirty + held| < |bufs|
    ensures exists i :: 0 <= i < |bufs| && Recyclable(bufs[i])
  {
    if forall i :: 0 <= i < |bufs| ==> !Recyclable(bufs[i]) {
      forall i | 0 <= i < |bufs| ensures bufs[i].dev != 0 && bufs[i].blockno in dirty + held {
        assert BufOk(bufs[i], i, disk, index, view);
      }
      BlocknosCount(bufs, disk, index, view, |bufs|);
      SubsetSize(Blocknos(bufs, |bufs|), dirty + held);
    }
  }

  // The buffers of the blocks of s.
  ghost function BuffersOf(index: map<nat, nat>, s: set<nat>): (r: set<nat>)
    requires s <= index.Keys
  {
    set b | b in s :: index[b]
  }

  lemma {:induction false} BuffersCount(index: map<nat, nat>, s: set<nat>)
    requires s <= index.Keys && forall b, c :: b in s && c in s && index[b] == index[c] ==> b == c
    ensures |BuffersOf(index, s)| == |s|
  {
    if s == {} {
      assert BuffersOf(index, s) == {};
    } else {
      var b :| b in s;
      BuffersCount(index, s - {b});
      assert BuffersOf(index, s) == BuffersOf(index, s - {b}) + {index[b]};
      assert index[b] !in BuffersOf(index, s - {b});
    }
  }

  // With as many dirty and locked blocks as buffers, bget() finds none.
  lemma NoneRecyclable(bufs: seq<Buf>, disk: Disk, index: map<nat, nat>, view: Disk, dirty: set<nat>, held: set<nat>,
                       i: nat)
    requires Ok(bufs, disk, index, view, dirty, held) && |dirty + held| >= |bufs| && i < |bufs|
    ensures (bufs[i].dirty || bufs[i].locked) && !Recyclable(bufs[i])
  {
    assert BufOk(bufs[i], i, disk, index, view);
    BuffersCount(index, dirty + held);
    if i !in BuffersOf(index, dirty + held) {
      BelowCount(BuffersOf(index, dirty + held), |bufs|, i);
    }
  }

  lemma {:induction false} BelowCount(s: set<nat>, n: nat, i: nat)
    requires forall x :: x in s ==> x < n
    requires i < n && i !in s
    ensures |s| < n
    decreases n
  {
    if n - 1 in s {
      BelowCount(s - {n - 1}, n - 1, i);
    } else if i < n - 1 {
      BelowCount(s, n - 1, i);
    } else {
      BelowSize(s, n - 1);
    }
  }

  lemma {:induction false} BelowSize(s: set<nat>, n: nat)
    requires forall x :: x in s ==> x < n
    ensures |s| <= n
    decreases n
  {
    if n == 0 {
      assert s == {};
    } else if n - 1 in s {
      BelowSize(s - {n - 1}, n - 1);
    } else {
      BelowSize(s, n - 1);
    }
  }

  // While no process waits for a buffer, bget() can take one for a new block
  // exactly if fewer blocks are dirty or locked than there are buffers.
  lemma RecyclableExactly(bufs: seq<Buf>, disk: Disk, index: map<nat, nat>, view: Disk, dirty: set<nat>, held: set<nat>)
    requires Ok(bufs, disk, index, view, dirty, held) && NoWaiters(bufs)
    ensures (exists i :: 0 <= i < |bufs| && Recyclable(bufs[i])) <==> |dirty + held| < |bufs|
  {
    if |dirty + held| < |bufs| {
      SomeRecyclable(bufs, disk, index, view, dirty, held);
    } else {
      forall i: nat | i < |bufs| ensures !Recyclable(bufs[i]) {
        NoneRecyclable(bufs, disk, index, view, dirty, held, i);
      }
    }
  }

  lemma {:induction false} SubsetSize(a: set<nat>, c: set<nat>)
    requires a <= c
    ensures |a| <= |c|
  {
    if a != {} {
      var x :| x in a;
      SubsetSize(a - {x}, c - {x});
    }
  }

  // The least recently used buffer that can be recycled.
  ghost predicate IsVictim(lru: seq<nat>, bufs: seq<Buf>, i: nat)
    requires InRange(lru, |bufs|)
  {
    i < |bufs| && Recyclable(bufs[i]) &&
    exists k :: 0 <= k < |lru| && lru[k] == i && forall j :: k < j < |lru| ==> !Recyclable(bufs[lru[j]])
  }

  // The list after the buffers rs have been released for good, one after the
  // other; see BufferCache.Unreference.
  function Released(lru: seq<nat>, rs: seq<nat>): (q: seq<nat>) {
    if rs == [] then lru else [rs[|rs| - 1]] + Without(Released(lru, rs[..|rs| - 1]), rs[|rs| - 1])
  }

  // The last release of x is later than that of y.
  ghost predicate Later(rs: seq<nat>, x: nat, y: nat) {
    exists j :: 0 <= j < |rs| && rs[j] == x && y !in rs[j..]
  }

  lemma {:induction false} ReleasedMembers(lru: seq<nat>, rs: seq<nat>)
    requires Distinct(lru)
    ensures Distinct(Released(lru, rs)) && forall x :: x in lru ==> x in Released(lru, rs)
  {
    if rs != [] {
      var z := rs[|rs| - 1];
      var q := Released(lru, rs[..|rs| - 1]);
      ReleasedMembers(lru, rs[..|rs| - 1]);
      WithoutMembers(q, z);
      InsertAtMembers(Without(q, z), 0, z);
      assert InsertAt(Without(q, z), 0, z) == [z] + Without(q, z);
    }
  }

  lemma LaterStep(rs: seq<nat>, x: nat, y: nat)
    requires Later(rs, x, y)
    ensures rs != [] && rs[|rs| - 1] != y
    ensures rs[|rs| - 1] == x || Later(rs[..|rs| - 1], x, y)
  {
    var n := |rs| - 1;
    var j :| 0 <= j < |rs| && rs[j] == x && y !in rs[j..];
    assert rs[j..][n - j] == rs[n];
    if j < n {
      assert rs[..n][j] == x && rs[j..] == rs[..n][j..] + [rs[n]];
    }
  }

  // What has been released later is nearer to the front.
  lemma {:induction false} LaterInFront(lru: seq<nat>, rs: seq<nat>, x: nat, y: nat)
    requires Distinct(lru) && y in lru && Later(rs, x, y)
    ensures Before(Released(lru, rs), x, y)
  {
    hide Later, Before;
    LaterStep(rs, x, y);
    var n := |rs| - 1;
    var z := rs[n];
    var q := Released(lru, rs[..n]);
    if z == x {
      ReleasedMembers(lru, rs[..n]);
      WithoutOther(q, x, y);
      BeforeHead(Without(q, x), x, y);
    } else {
      LaterInFront(lru, rs[..n], x, y);
      BeforeWithout(q, z, x, y);
      BeforeInside([z], Without(q, z), [], x, y);
      assert [z] + Without(q, z) + [] == Released(lru, rs);
    }
  }

  // The buffer taken is the least recently used: none that could be taken as well
  // has gone unused for longer.
  lemma VictimOldest(lru: seq<nat>, rs: seq<nat>, bufs: seq<Buf>, i: nat, y: nat)
    requires Distinct(lru) && y in lru && y < |bufs| && Recyclable(bufs[y])
    requires InRange(Released(lru, rs), |bufs|) && IsVictim(Released(lru, rs), bufs, i)
    ensures !Later(rs, i, y)
  {
    if Later(rs, i, y) {
      LaterInFront(lru, rs, i, y);
      ReleasedMembers(lru, rs);
    }
  }

  lemma VictimFree(lru: seq<nat>, bufs: seq<Buf>, i: nat)
    requires InRange(lru, |bufs|) && IsVictim(lru, bufs, i)
    ensures i < |bufs| && Recyclable(bufs[i])
  {
  }

  class BufferCache {
    const bufs: array<Buf>
    const next: array<nat>
    const prev: array<nat>
    const disk: array<Block>
    ghost var lru: seq<nat>
    ghost var index: map<nat, nat>
    ghost var view: Disk
    ghost var dirty: set<nat>
    ghost var held: set<nat>
    ghost var trace: seq<Write>

    ghost predicate ListOk()
      reads this`lru, next, prev
    {
      && next.Length == bufs.Length + 1 && next != prev
      && Ring(lru, next[..], prev[..]) && forall i: nat :: i < bufs.Length ==> i in lru
    }

    ghost predicate DataOk()
      reads this`index, this`view, this`dirty, this`held, bufs, disk
    {
      Ok(bufs[..], disk[..], index, view, dirty, held)
    }

    ghost predicate Valid()
      reads this`lru, this`index, this`view, this`dirty, this`held, bufs, next, prev, disk
    {
      ListOk() && DataOk()
    }

    // The buffer i is locked, is for block b, and has been read.
    ghost predicate Holds(i: nat, b: nat)
      reads this`index, this`held, bufs
    {
      HoldsIn(bufs[..], index, held, i, b)
    }

    // Every locked buffer has been read.
    ghost predicate HeldRead()
      reads this`index, this`held, bufs
    {
      AllRead(bufs[..], index, held)
    }

    ghost predicate Calm()
      reads bufs
    {
      NoWaiters(bufs[..])
    }

    // bget() does not panic.
    ghost predicate Obtainable(b: nat)
      reads this`index, bufs
    {
      b in index || exists i :: 0 <= i < bufs.Length && Recyclable(bufs[i])
    }

    // A process that has locked the buffer of b has a pointer to the only one.
    lemma OwnBuffer(b: nat, i: nat)
      requires Valid() && HeldRead() && b in held
      requires i < bufs.Length ==> bufs[i].dev == 1 && bufs[i].blockno == b
      requires i >= bufs.Length ==> forall j :: 0 <= j < bufs.Length ==> !(bufs[j].dev == 1 && bufs[j].blockno == b)
      ensures Holds(i, b)
    {
      assert Holds(index[b], b);
      AtMostOne(bufs[..], disk[..], index, view, dirty, held, i, index[b]);
    }

    lemma DirtyIsObtainable(b: nat)
      requires Valid() && b in dirty
      ensures Obtainable(b)
    {
    }

    lemma UpToDate(b: nat)
      requires Valid() && b < disk.Length
      ensures |view| == disk.Length && (b !in dirty && b !in held ==> view[b] == disk[b])
    {
    }

    lemma AllUpToDate()
      requires Valid() && held == {}
      ensures |view| == disk.Length && forall b: nat :: b < disk.Length && b !in dirty ==> view[b] == disk[b]
    {
    }

    lemma RoomToRead(b: nat)
      requires Valid() && Calm() && |dirty + held| < bufs.Length
      ensures Obtainable(b)
    {
      SomeRecyclable(bufs[..], disk[..], index, view, dirty, held);
      var i :| 0 <= i < |bufs[..]| && Recyclable(bufs[..][i]);
      assert Recyclable(bufs[i]);
    }

    // ------------------------------------------------------------- the list

    ghost predicate Linked()
      reads this`lru, next, prev
    {
      next.Length == bufs.Length + 1 && next != prev && Ring(lru, next[..], prev[..])
    }

    // binit()
    constructor (nbuf: nat, image: Disk)
      ensures Valid() && Calm() && bufs.Length == nbuf && fresh(bufs) && fresh(next) && fresh(prev) && fresh(disk)
      ensures disk[..] == image && view == image && index == map[] && dirty == {} && held == {} && trace == []
    {
      bufs := new Buf[nbuf](_ => Buf(0, 0, false, false, 0, false, []));
      next := new nat[nbuf + 1](_ => nbuf);
      prev := new nat[nbuf + 1](_ => nbuf);
      disk := new Block[|image|](i requires 0 <= i < |image| => image[i]);
      lru, index, view, dirty, held, trace := [], map[], image, {}, {}, [];
      new;
      assert disk[..] == image;
      var b := 0;
      while b < nbuf
        modifies this`lru, next, prev
        invariant 0 <= b <= nbuf && Linked() && forall x :: x in lru <==> 0 <= x < b
      {
        LinkFront(b);
        b := b + 1;
      }
      assert forall i :: 0 <= i < nbuf ==> BufOk(bufs[..][i], i, disk[..], index, view);
    }

    method LinkFront(b: nat)
      requires Linked() && b < bufs.Length && b !in lru
      modifies this`lru, next, prev
      ensures Linked() && lru == [b] + old(lru)
    {
      FrontWorks(lru, next[..], prev[..], b);
      var head := bufs.Length;
      next[b] := next[head];
      prev[b] := head;
      prev[next[head]] := b;
      next[head] := b;
      lru := [b] + lru;
    }

    method Unlink(b: nat)
      requires Linked() && b in lru
      modifies this`lru, next, prev
      ensures Linked() && lru == Without(old(lru), b) && b !in lru && forall x :: x in old(lru) && x != b ==> x in lru
    {
      ghost var m :| 0 <= m < |lru| && lru[m] == b;
      UnlinkWorks(lru, next[..], prev[..], m);
      WithoutAt(lru, m);
      WithoutMembers(lru, b);
      prev[next[b]] := prev[b];
      next[prev[b]] := next[b];
      lru := Without(lru, b);
    }

    // The first loop of bget(). Nothing found is the head.
    method Find(dev: nat, blockno: nat) returns (b: nat)
      requires ListOk()
      ensures b < bufs.Length ==> bufs[b].dev == dev && bufs[b].blockno == blockno
      ensures b >= bufs.Length ==>
        forall i :: 0 <= i < bufs.Length ==> !(bufs[i].dev == dev && bufs[i].blockno == blockno)
    {
      var head := bufs.Length;
      assert Edge(lru, next[..], prev[..], 0);
      b := next[head];
      ghost var k := 0;
      while b != head
        invariant 0 <= k <= |lru| && b == At(lru, head, k + 1)
        invariant forall j :: 0 <= j < k ==> !(bufs[lru[j]].dev == dev && bufs[lru[j]].blockno == blockno)
        decreases |lru| - k
      {
        if bufs[b].dev == dev && bufs[b].blockno == blockno {
          return;
        }
        assert Edge(lru, next[..], prev[..], k + 1);
        b := next[b];
        k := k + 1;
      }
      forall i: nat | i < bufs.Length ensures !(bufs[i].dev == dev && bufs[i].blockno == blockno) {
        assert i in lru;
      }
    }

    // The second loop of bget().
    method FindVictim() returns (b: nat)
      requires ListOk()
      ensures b < bufs.Length ==> IsVictim(lru, bufs[..], b)
      ensures b >= bufs.Length ==> forall i :: 0 <= i < bufs.Length ==> !Recyclable(bufs[i])
    {
      var head := bufs.Length;
      assert Edge(lru, next[..], prev[..], |lru|);
      b := prev[head];
      ghost var k := |lru|;
      while b != head
        invariant 0 <= k <= |lru| && b == At(lru, head, k)
        invariant forall j :: k <= j < |lru| ==> !Recyclable(bufs[lru[j]])
        decreases k
      {
        if bufs[b].refcnt == 0 && !bufs[b].dirty {
          assert lru[k - 1] == b;
          return;
        }
        assert Edge(lru, next[..], prev[..], k - 1);
        b := prev[b];
        k := k - 1;
      }
      forall i: nat | i < bufs.Length ensures !Recyclable(bufs[i]) {
        assert i in lru;
      }
    }

    method MoveToFront(b: nat)
      requires ListOk() && b < bufs.Length
      modifies this`lru, next, prev
      ensures ListOk() && lru == [b] + Without(old(lru), b)
    {
      Unlink(b);
      LinkFront(b);
    }

    // ------------------------------------------------------------- bget, bread

    // bget() up to the sleep lock.
    method Bget(dev: nat, blockno: nat) returns (b: nat)
      requires Valid() && dev == 1 && blockno < disk.Length && Obtainable(blockno)
      modifies this`index, bufs
      ensures Valid() && b < bufs.Length && bufs[b].dev == 1 && bufs[b].blockno == blockno
      ensures blockno in old(index) ==>
        && b == old(index)[blockno] && index == old(index)
        && Updated(old(bufs[..]), bufs[..], b, old(bufs[..])[b].(refcnt := old(bufs[..])[b].refcnt + 1))
      ensures blockno !in old(index) ==>
        && IsVictim(lru, old(bufs[..]), b) && index == Reindexed(old(bufs[..]), old(index), b, blockno)
        && Updated(old(bufs[..]), bufs[..], b, Buf(1, blockno, false, false, 1, false, old(bufs[..])[b].data))
    {
      hide Ok, IsVictim, Reindexed;
      ghost var was := bufs[..];
      b := Find(dev, blockno);
      if b < bufs.Length {
        HeldOk(was, disk[..], index, view, dirty, held, b);
        CountKeeps(was, disk[..], index, view, dirty, held, b, was[b].refcnt + 1, was[b].locked);
        bufs[b] := bufs[b].(refcnt := bufs[b].refcnt + 1);
        assert bufs[..] == was[b := was[b].(refcnt := was[b].refcnt + 1, locked := was[b].locked)];
      } else {
        NotIndexed(was, disk[..], index, view, dirty, held, blockno);
        b := FindVictim();
        VictimFree(lru, was, b);
        RecycleKeeps(was, disk[..], index, view, dirty, held, b, blockno);
        index := Reindexed(was, index, b, blockno);
        bufs[b] := Buf(1, blockno, false, false, 1, false, bufs[b].data);
        assert bufs[..] == was[b := Buf(1, blockno, false, false, 1, false, was[b].data)];
      }
    }

    // acquiresleep() on a free lock.
    method Acquire(b: nat)
      requires Valid() && b < bufs.Length && bufs[b].dev == 1 && bufs[b].refcnt > 0 && !bufs[b].locked
      modifies this`held, bufs
      ensures Valid() && held == old(held) + {bufs[b].blockno}
      ensures Updated(old(bufs[..]), bufs[..], b, old(bufs[..])[b].(locked := true))
    {
      CountKeeps(bufs[..], disk[..], index, view, dirty, held, b, bufs[b].refcnt, true);
      bufs[b] := bufs[b].(locked := true);
      held := held + {bufs[b].blockno};
    }

    // iderw() of memide.c. Its panics are what it requires.
    method Iderw(b: nat)
      requires Valid() && b < bufs.Length && bufs[b].locked && !(bufs[b].valid && !bufs[b].dirty)
      requires bufs[b].dev == 1 && bufs[b].blockno < disk.Length
      modifies this`dirty, this`trace, bufs, disk
      ensures Valid() && dirty == old(dirty) - {bufs[b].blockno}
      ensures var was := old(bufs[..])[b];
        Updated(old(bufs[..]), bufs[..], b, was.(valid := true, dirty := false, data := view[was.blockno]))
      ensures var w := Write(bufs[b].blockno, view[bufs[b].blockno]);
        if old(bufs[b].dirty) then disk[..] == Put(old(disk[..]), w) && trace == old(trace) + [w]
        else disk[..] == old(disk[..]) && trace == old(trace)
    {
      hide Ok, Ring;
      ghost var was := bufs[..];
      ghost var n := bufs[b].blockno;
      HeldOk(was, disk[..], index, view, dirty, held, b);
      UpdateKeeps(was, disk[..], index, view, dirty, held, b,
        was[b].(valid := true, dirty := false, data := view[n]), view[n], view[n]);
      assert view[n := view[n]] == view && With(held, n, true) == held;
      if bufs[b].dirty {
        bufs[b] := bufs[b].(dirty := false);
        disk[bufs[b].blockno] := bufs[b].data;
        trace := trace + [Write(n, bufs[b].data)];
      } else {
        bufs[b] := bufs[b].(data := disk[bufs[b].blockno]);
        assert disk[..][n := view[n]] == disk[..];
      }
      bufs[b] := bufs[b].(valid := true);
      dirty := dirty - {n};
      assert bufs[..] == was[b := was[b].(valid := true, dirty := false, data := view[n])];
    }

    // The rest of bread(): lock the buffer, and read it if it is not valid.
    method LockAndRead(b: nat)
      requires Valid() && b < bufs.Length && bufs[b].dev == 1 && bufs[b].refcnt > 0 && !bufs[b].locked
      requires bufs[b].blockno < disk.Length
      modifies this`held, this`dirty, this`trace, bufs, disk
      ensures Valid() && held == old(held) + {bufs[b].blockno} && dirty == old(dirty)
      ensures disk[..] == old(disk[..]) && trace == old(trace)
      ensures var was := old(bufs[..])[b];
        Updated(old(bufs[..]), bufs[..], b, was.(locked := true, valid := true, data := view[was.blockno]))
    {
      assert BufOk(bufs[..][b], b, disk[..], index, view);
      Acquire(b);
      if !bufs[b].valid {
        Iderw(b);
      }
    }

    // bread(). If another process has locked the buffer, the caller has its
    // reference and sleeps; once the lock is free it goes on with LockAndRead.
    method Bread(dev: nat, blockno: nat) returns (b: nat, asleep: bool)
      requires Valid() && dev == 1 && blockno < disk.Length && Obtainable(blockno)
      modifies this`index, this`held, this`dirty, this`trace, bufs, disk
      ensures Valid() && dirty == old(dirty) && disk[..] == old(disk[..]) && trace == old(trace)
      ensures b < bufs.Length && bufs[b].dev == 1 && bufs[b].blockno == blockno && bufs[b].refcnt > 0
      ensures asleep <==> blockno in old(held)
      ensures asleep ==>
        && held == old(held)
        && Updated(old(bufs[..]), bufs[..], b, old(bufs[..])[b].(refcnt := old(bufs[..])[b].refcnt + 1))
      ensures !asleep ==>
        held == old(held) + {blockno} && Holds(b, blockno) && bufs[b].data == view[blockno]
      ensures forall i: nat, c: nat :: c != blockno && old(Holds(i, c)) ==> Holds(i, c) && bufs[i] == old(bufs[i])
      ensures !asleep ==> (old(Calm()) ==> Calm()) && (old(HeldRead()) ==> HeldRead())
    {
      hide Ok, BufOk, Edge, IsVictim, Recyclable;
      ghost var was := bufs[..];
      ghost var wasIndex, wasHeld := index, held;
      BeforeRead(was, disk[..], index, view, dirty, held, blockno);
      b := Bget(dev, blockno);
      if blockno !in wasIndex {
        VictimFree(lru, was, b);
      }
      asleep := bufs[b].locked;
      if !asleep {
        LockAndRead(b);
      }
      assert bufs[..] == was[b := bufs[b]];
      forall i: nat, c: nat | c != blockno && HoldsIn(was, wasIndex, wasHeld, i, c)
        ensures Holds(i, c) && bufs[i] == was[i]
      {
        OthersHeld(was, wasIndex, wasHeld, b, bufs[b], blockno, i, c, held);
      }
      if !asleep && AllRead(was, wasIndex, wasHeld) {
        StillRead(was, wasIndex, wasHeld, bufs[..], index, held, blockno, b);
      }
    }

    // ------------------------------------------------- changing a locked buffer

    // memmove() into b->data.
    method SetData(b: nat, data: Block, ghost blockno: nat)
      requires Valid() && Holds(b, blockno)
      modifies this`view, bufs
      ensures Valid() && view == old(view)[blockno := data]
      ensures Updated(old(bufs[..]), bufs[..], b, old(bufs[..])[b].(data := data))
      ensures forall i: nat, c: nat :: old(Holds(i, c)) ==> Holds(i, c)
      ensures (old(Calm()) ==> Calm()) && (old(HeldRead()) ==> HeldRead())
    {
      hide Ring;
      ghost var was := bufs[..];
      assert BufOk(was[b], b, disk[..], index, view);
      UpdateKeeps(was, disk[..], index, view, dirty, held, b, was[b].(data := data), data, disk[blockno]);
      assert disk[..][blockno := disk[blockno]] == disk[..] && With(dirty, blockno, was[b].dirty) == dirty
        && With(held, blockno, true) == held;
      bufs[b] := bufs[b].(data := data);
      view := view[blockno := data];
    }

    // flags |= B_DIRTY
    method SetDirty(b: nat, ghost blockno: nat)
      requires Valid() && Holds(b, blockno)
      modifies this`dirty, bufs
      ensures Valid() && dirty == old(dirty) + {blockno}
      ensures Updated(old(bufs[..]), bufs[..], b, old(bufs[..])[b].(dirty := true))
      ensures forall i: nat, c: nat :: old(Holds(i, c)) ==> Holds(i, c)
      ensures (old(Calm()) ==> Calm()) && (old(HeldRead()) ==> HeldRead())
    {
      hide Ring;
      ghost var was := bufs[..];
      assert BufOk(was[b], b, disk[..], index, view);
      UpdateKeeps(was, disk[..], index, view, dirty, held, b, was[b].(dirty := true), view[blockno], disk[blockno]);
      assert disk[..][blockno := disk[blockno]] == disk[..] && view[blockno := view[blockno]] == view
        && With(held, blockno, true) == held;
      bufs[b] := bufs[b].(dirty := true);
      dirty := dirty + {blockno};
    }

    // bwrite()
    method Bwrite(b: nat, ghost blockno: nat)
      requires Valid() && Holds(b, blockno)
      modifies this`dirty, this`trace, bufs, disk
      ensures Valid() && dirty == old(dirty) - {blockno}
      ensures var w := Write(blockno, view[blockno]);
        disk[..] == Put(old(disk[..]), w) && trace == old(trace) + [w]
      ensures Updated(old(bufs[..]), bufs[..], b, old(bufs[..])[b].(dirty := false))
      ensures forall i: nat, c: nat :: old(Holds(i, c)) ==> Holds(i, c)
      ensures old(Calm()) ==> Calm()
    {
      hide Ring;
      assert BufOk(bufs[..][b], b, disk[..], index, view);
      SetDirty(b, blockno);
      Iderw(b);
    }

    // releasesleep(), of a buffer that is up to date on disk or pinned by the log.
    method Unlock(b: nat, ghost blockno: nat)
      requires Valid() && Holds(b, blockno) && (blockno in dirty || view[blockno] == disk[blockno])
      modifies this`held, bufs
      ensures Valid() && held == old(held) - {blockno}
      ensures Updated(old(bufs[..]), bufs[..], b, old(bufs[..])[b].(locked := false))
      ensures forall i: nat, c: nat :: c != blockno && old(Holds(i, c)) ==> Holds(i, c)
    {
      hide Ok, Ring;
      ghost var was := bufs[..];
      HeldOk(was, disk[..], index, view, dirty, held, b);
      CountKeeps(was, disk[..], index, view, dirty, held, b, was[b].refcnt, false);
      bufs[b] := bufs[b].(locked := false);
      held := held - {blockno};
      assert bufs[..] == was[b := was[b].(refcnt := was[b].refcnt, locked := false)];
    }

    // The rest of brelse(), under bcache.lock. Until then another process may
    // have locked the buffer again, with a reference of its own.
    method Unreference(b: nat)
      requires Valid() && b < bufs.Length && bufs[b].dev == 1 && bufs[b].refcnt > if bufs[b].locked then 1 else 0
      modifies this`lru, bufs, next, prev
      ensures Valid()
      ensures Updated(old(bufs[..]), bufs[..], b, old(bufs[..])[b].(refcnt := old(bufs[..])[b].refcnt - 1))
      ensures lru == if bufs[b].refcnt == 0 then [b] + Without(old(lru), b) else old(lru)
      ensures forall i: nat, c: nat :: old(Holds(i, c)) ==> Holds(i, c)
    {
      hide Ok, Ring;
      ghost var was := bufs[..];
      CountKeeps(was, disk[..], index, view, dirty, held, b, was[b].refcnt - 1, was[b].locked);
      bufs[b] := bufs[b].(refcnt := bufs[b].refcnt - 1);
      assert bufs[..] == was[b := was[b].(refcnt := was[b].refcnt - 1, locked := was[b].locked)];
      if bufs[b].refcnt == 0 {
        MoveToFront(b);
      }
    }

    // brelse() with nothing in between.
    method Brelse(b: nat, ghost blockno: nat)
      requires Valid() && Holds(b, blockno) && (blockno in dirty || view[blockno] == disk[blockno])
      modifies this`held, this`lru, bufs, next, prev
      ensures Valid() && held == old(held) - {blockno}
      ensures var was := old(bufs[..])[b];
        Updated(old(bufs[..]), bufs[..], b, was.(locked := false, refcnt := was.refcnt - 1))
      ensures lru == if bufs[b].refcnt == 0 then [b] + Without(old(lru), b) else old(lru)
      ensures forall i: nat, c: nat :: c != blockno && old(Holds(i, c)) ==> Holds(i, c)
      ensures (old(Calm()) ==> Calm()) && (old(HeldRead()) ==> HeldRead())
    {
      hide Ok, ListOk, AllRead;
      ghost var was, wasHeld := bufs[..], held;
      HeldOk(was, disk[..], index, view, dirty, held, b);
      Unlock(b, blockno);
      Unreference(b);
      if AllRead(was, index, wasHeld) {
        StillRead(was, index, wasHeld, bufs[..], index, held, blockno, b);
      }
    }
  }
}
