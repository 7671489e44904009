// The doubly linked process queues of proc.c, link by link.
module ProcQueue {
  import opened Wrappers
  import opened Slots
  import opened Sched

  // The process table is a fixed array; a pointer to an entry is its slot, and a
  // null pointer None.

  datatype Entry = Entry(b: Pcb, prev: Option<nat>, next: Option<nat>)

  function PrevIn(q: seq<nat>, i: nat): (r: Option<nat>)
    requires i < |q|
  {
    if i == 0 then None else Some(q[i - 1])
  }

  function NextIn(q: seq<nat>, i: nat): (r: Option<nat>)
    requires i < |q|
  {
    if i + 1 == |q| then None else Some(q[i + 1])
  }

  // Each entry named in q points at its neighbours in q.
  ghost predicate Linked(q: seq<nat>, t: seq<Entry>) {
    && InRange(q, |t|)
    && forall i {:trigger t[q[i]]} :: 0 <= i < |q| ==> t[q[i]].prev == PrevIn(q, i) && t[q[i]].next == NextIn(q, i)
  }

  // Only links of slots in touched differ.
  ghost predicate Relinked(t: seq<Entry>, u: seq<Entry>, touched: set<nat>) {
    && |u| == |t|
    && (forall x: nat :: x < |t| ==> u[x].b == t[x].b)
    && (forall x: nat :: x < |t| && x !in touched ==> u[x] == t[x])
  }

  ghost function Members(q: seq<nat>): (m: set<nat>)
    ensures forall x :: x in m <==> x in q
  {
    set x | x in q
  }

  lemma LinkedElsewhere(q: seq<nat>, t: seq<Entry>, u: seq<Entry>, touched: set<nat>)
    requires Linked(q, t) && Relinked(t, u, touched) && forall x :: x in q ==> x !in touched
    ensures Linked(q, u)
  {
    forall i | 0 <= i < |q| ensures u[q[i]] == t[q[i]] { assert q[i] in q; }
  }

  // The table after p has been linked into q at position k.
  ghost function LinkIn(t: seq<Entry>, q: seq<nat>, k: nat, p: nat): (u: seq<Entry>)
    requires k <= |q| && InRange(q, |t|) && p < |t|
    ensures |u| == |t|
  {
    var before := if k == 0 then None else Some(q[k - 1]);
    var after := if k == |q| then None else Some(q[k]);
    var t1 := t[p := t[p].(prev := before, next := after)];
    var t2 := if k == 0 then t1 else t1[q[k - 1] := t1[q[k - 1]].(next := Some(p))];
    if k == |q| then t2 else t2[q[k] := t2[q[k]].(prev := Some(p))]
  }

  // The links are those of q with p spliced in at position k.
  ghost predicate Spliced(q: seq<nat>, k: nat, p: nat, t: seq<Entry>)
    requires k <= |q|
  {
    && InRange(q, |t|) && p < |t|
    && t[p].prev == (if k == 0 then None else Some(q[k - 1]))
    && t[p].next == (if k == |q| then None else Some(q[k]))
    && forall i {:trigger t[q[i]]} :: 0 <= i < |q| ==>
         t[q[i]].prev == (if i == k then Some(p) else PrevIn(q, i))
         && t[q[i]].next == (if i + 1 == k then Some(p) else NextIn(q, i))
  }

  lemma SplicedLinks(t: seq<Entry>, q: seq<nat>, k: nat, p: nat)
    requires k <= |q| && Linked(q, t) && Distinct(q) && p < |t| && p !in q
    ensures Spliced(q, k, p, LinkIn(t, q, k, p))
  {
    var u := LinkIn(t, q, k, p);
    forall i | 0 <= i < |q|
      ensures u[q[i]].prev == (if i == k then Some(p) else PrevIn(q, i))
      ensures u[q[i]].next == (if i + 1 == k then Some(p) else NextIn(q, i))
    {
      assert q[i] in q && t[q[i]].prev == PrevIn(q, i);
    }
  }

  lemma SplicedLinked(q: seq<nat>, k: nat, p: nat, t: seq<Entry>)
    requires k <= |q| && Spliced(q, k, p, t)
    ensures Linked(InsertAt(q, k, p), t)
  {
    var r := InsertAt(q, k, p);
    forall i | 0 <= i < |r| ensures r[i] < |t| && t[r[i]].prev == PrevIn(r, i) && t[r[i]].next == NextIn(r, i) {
      assert r[i] == if i < k then q[i] else if i == k then p else q[i - 1];
    }
  }

  lemma LinkInWorks(t: seq<Entry>, q: seq<nat>, k: nat, p: nat)
    requires k <= |q| && Linked(q, t) && Distinct(q) && p < |t| && p !in q
    ensures var u := LinkIn(t, q, k, p); var r := InsertAt(q, k, p);
      Linked(r, u) && Distinct(r) && Relinked(t, u, Members(r))
  {
    hide Linked, LinkIn, InsertAt, Spliced;
    assert InRange(q, |t|) by { LinkedInRange(q, t); }
    SplicedLinks(t, q, k, p);
    SplicedLinked(q, k, p, LinkIn(t, q, k, p));
    InsertAtMembers(q, k, p);
    RelinkedIn(t, q, k, p);
  }

  lemma RelinkedIn(t: seq<Entry>, q: seq<nat>, k: nat, p: nat)
    requires k <= |q| && InRange(q, |t|) && p < |t|
    ensures Relinked(t, LinkIn(t, q, k, p), Members(InsertAt(q, k, p)))
  {
    var r := InsertAt(q, k, p);
    assert r[k] == p;
    if k > 0 { assert r[k - 1] == q[k - 1]; }
    if k < |q| { assert r[k + 1] == q[k]; }
  }

  // The table after the neighbours of p have been linked to each other and p to
  // nothing.
  ghost function LinkOut(t: seq<Entry>, p: nat): (u: seq<Entry>)
    requires p < |t|
    requires (t[p].prev.Some? ==> t[p].prev.value < |t|) && (t[p].next.Some? ==> t[p].next.value < |t|)
    ensures |u| == |t|
  {
    var before, after := t[p].prev, t[p].next;
    var t1 := if after == None then t else t[after.value := t[after.value].(prev := before)];
    var t2 := if before == None then t1 else t1[before.value := t1[before.value].(next := after)];
    t2[p := t2[p].(prev := None, next := None)]
  }

  // The links are those of q with the entry at position k spliced out.
  ghost predicate SplicedOut(q: seq<nat>, k: nat, t: seq<Entry>)
    requires k < |q|
  {
    && InRange(q, |t|)
    && forall i {:trigger t[q[i]]} :: 0 <= i < |q| && i != k ==>
         t[q[i]].prev == (if i == k + 1 then PrevIn(q, k) else PrevIn(q, i))
         && t[q[i]].next == (if i + 1 == k then NextIn(q, k) else NextIn(q, i))
  }

  // LinkOut, entry by entry.
  lemma LinkOutAt(t: seq<Entry>, p: nat, x: nat)
    requires p < |t| && x < |t| && x != p
    requires (t[p].prev.Some? ==> t[p].prev.value < |t|) && (t[p].next.Some? ==> t[p].next.value < |t|)
    ensures LinkOut(t, p)[x]
      == Entry(t[x].b,
               if t[p].next == Some(x) then t[p].prev else t[x].prev,
               if t[p].prev == Some(x) then t[p].next else t[x].next)
  {
  }

  lemma SplicedOutLinks(t: seq<Entry>, q: seq<nat>, k: nat)
    requires k < |q| && Linked(q, t) && Distinct(q)
    ensures t[q[k]].prev == PrevIn(q, k) && t[q[k]].next == NextIn(q, k)
    ensures SplicedOut(q, k, LinkOut(t, q[k]))
  {
    assert t[q[k]].prev == PrevIn(q, k);
    hide LinkOut;
    forall i | 0 <= i < |q| && i != k
      ensures LinkOut(t, q[k])[q[i]].prev == (if i == k + 1 then PrevIn(q, k) else PrevIn(q, i))
      ensures LinkOut(t, q[k])[q[i]].next == (if i + 1 == k then NextIn(q, k) else NextIn(q, i))
    {
      LinkOutAt(t, q[k], q[i]);
      assert t[q[i]].prev == PrevIn(q, i);
    }
  }

  lemma SplicedOutLinked(q: seq<nat>, k: nat, t: seq<Entry>)
    requires k < |q| && SplicedOut(q, k, t) && Distinct(q)
    ensures Linked(Cut(q, k), t) && Distinct(Cut(q, k))
  {
    var r := Cut(q, k);
    forall i | 0 <= i < |r| ensures r[i] < |t| && t[r[i]].prev == PrevIn(r, i) && t[r[i]].next == NextIn(r, i) {
      SplicedOutAt(q, k, t, i);
    }
    hide SplicedOut;
  }

  lemma SplicedOutAt(q: seq<nat>, k: nat, t: seq<Entry>, i: nat)
    requires k < |q| && SplicedOut(q, k, t) && i < |q| - 1
    ensures var r := Cut(q, k); r[i] < |t| && t[r[i]].prev == PrevIn(r, i) && t[r[i]].next == NextIn(r, i)
  {
    var r := Cut(q, k);
    var j := if i < k then i else i + 1;
    assert r[i] == q[j];
    assert t[q[j]].prev == (if j == k + 1 then PrevIn(q, k) else PrevIn(q, j));
    if i > 0 { assert r[i - 1] == if i - 1 < k then q[i - 1] else q[i]; }
    if i + 1 < |r| { assert r[i + 1] == if i + 1 < k then q[i + 1] else q[i + 2]; }
  }

  lemma RelinkedOut(t: seq<Entry>, q: seq<nat>, k: nat)
    requires k < |q| && InRange(q, |t|)
    requires t[q[k]].prev == PrevIn(q, k) && t[q[k]].next == NextIn(q, k)
    ensures Relinked(t, LinkOut(t, q[k]), Members(q))
  {
    var u := LinkOut(t, q[k]);
    assert u[q[k]].b == t[q[k]].b;
    hide LinkOut;
    forall x: nat | x < |t| && x != q[k]
      ensures u[x].b == t[x].b && (x !in q ==> u[x] == t[x])
    {
      LinkOutAt(t, q[k], x);
    }
  }

  lemma LinkOutWorks(t: seq<Entry>, q: seq<nat>, k: nat)
    requires k < |q| && Linked(q, t) && Distinct(q)
    ensures t[q[k]].prev == PrevIn(q, k) && t[q[k]].next == NextIn(q, k)
    ensures var u := LinkOut(t, q[k]); var r := Cut(q, k);
      Linked(r, u) && Distinct(r) && Relinked(t, u, Members(q))
  {
    SplicedOutLinks(t, q, k);
    SplicedOutLinked(q, k, LinkOut(t, q[k]));
    RelinkedOut(t, q, k);
  }

  // The table after the queues a and b have been joined.
  ghost function Join(t: seq<Entry>, a: seq<nat>, b: seq<nat>): (u: seq<Entry>)
    requires InRange(a, |t|) && InRange(b, |t|)
    ensures |u| == |t|
  {
    if a == [] || b == [] then t
    else
      var e, f := a[|a| - 1], b[0];
      var t1 := t[e := t[e].(next := Some(f))];
      t1[f := t1[f].(prev := Some(e))]
  }

  // The links at place i of the joined sequence.
  lemma JoinAt(t: seq<Entry>, a: seq<nat>, b: seq<nat>, i: nat)
    requires Linked(a, t) && Linked(b, t) && Distinct(a) && Distinct(b) && i < |a + b|
    requires forall x :: x in a ==> x !in b
    ensures var u, r := Join(t, a, b), a + b;
      r[i] < |u| && u[r[i]].prev == PrevIn(r, i) && u[r[i]].next == NextIn(r, i)
  {
    if i < |a| {
      assert a[i] in a && t[a[i]].next == NextIn(a, i);
    } else {
      assert b[i - |a|] in b && t[b[i - |a|]].prev == PrevIn(b, i - |a|);
    }
  }

  lemma JoinWorks(t: seq<Entry>, a: seq<nat>, b: seq<nat>)
    requires Linked(a, t) && Linked(b, t) && Distinct(a) && Distinct(b)
    requires forall x :: x in a ==> x !in b
    ensures Linked(a + b, Join(t, a, b)) && Distinct(a + b) && Relinked(t, Join(t, a, b), Members(a + b))
  {
    var u, r := Join(t, a, b), a + b;
    ConcatDistinct(a, b);
    forall i | 0 <= i < |r| ensures r[i] < |u| && u[r[i]].prev == PrevIn(r, i) && u[r[i]].next == NextIn(r, i) {
      JoinAt(t, a, b, i);
    }
    JoinElsewhere(t, a, b);
    hide Join;
  }

  lemma JoinElsewhere(t: seq<Entry>, a: seq<nat>, b: seq<nat>)
    requires InRange(a, |t|) && InRange(b, |t|)
    ensures Relinked(t, Join(t, a, b), Members(a + b))
  {
    if a != [] && b != [] {
      assert (a + b)[|a| - 1] == a[|a| - 1] && (a + b)[|a|] == b[0];
    }
  }

  lemma LinkedInRange(q: seq<nat>, t: seq<Entry>)
    requires Linked(q, t)
    ensures InRange(q, |t|)
  {
  }

  lemma LinkedAt(q: seq<nat>, t: seq<Entry>, k: nat)
    requires Linked(q, t) && k < |q|
    ensures t[q[k]].prev == PrevIn(q, k) && t[q[k]].next == NextIn(q, k)
  {
  }

  lemma EmptyLinked(t: seq<Entry>)
    ensures Linked([], t) && Distinct<nat>([])
  {
  }

  lemma CutEnds(q: seq<nat>, k: nat)
    requires Distinct(q) && k < |q|
    ensures (q[0] == q[k] <==> k == 0) && (q[|q| - 1] == q[k] <==> k == |q| - 1)
    ensures var r := Cut(q, k);
      r != [] ==> r[0] == (if k == 0 then q[1] else q[0]) && r[|r| - 1] == if k == |r| then q[k - 1] else q[|r|]
  {
  }

  lemma InsertAtEnds(q: seq<nat>, k: nat, p: nat)
    requires k <= |q|
    ensures var r := InsertAt(q, k, p);
      |r| == |q| + 1 && r[0] == (if k == 0 then p else q[0]) && r[|q|] == if k == |q| then p else q[|q| - 1]
  {
  }

  class Queue {
    var head: Option<nat>
    var tail: Option<nat>
    var count: int
    ghost var items: seq<nat>

    ghost predicate Valid(t: seq<Entry>)
      reads this
    {
      && count == |items|
      && head == (if items == [] then None else Some(items[0]))
      && tail == (if items == [] then None else Some(items[|items| - 1]))
      && Linked(items, t)
      && Distinct(items)
    }

    // initqueue()
    constructor ()
      ensures items == [] && forall t :: Valid(t)
    {
      head, tail, count := None, None, 0;
      items := [];
    }

    // Position of base; inserting before null means at the tail.
    ghost function PositionOf(base: Option<nat>): (k: nat)
      requires base.Some? && items != [] ==> base.value in items
      reads this
      ensures k <= |items|
      ensures items == [] || base == None ==> k == |items|
      ensures items != [] && base.Some? ==> k < |items| && items[k] == base.value
    {
      if items == [] || base == None then |items| else var k :| 0 <= k < |items| && items[k] == base.value; k
    }

    // Link p in front of base.
    method Insert(t: array<Entry>, p: nat, base: Option<nat>)
      requires Valid(t[..]) && p !in items && p < t.Length
      requires base.Some? && items != [] ==> base.value in items
      modifies this, t
      ensures Valid(t[..])
      ensures items == InsertAt(old(items), old(PositionOf(base)), p)
      ensures Relinked(old(t[..]), t[..], Members(items))
    {
      hide InsertAt, Distinct, Linked, Relinked;
      ghost var k := PositionOf(base);
      ghost var q, t0 := items, t[..];
      LinkedInRange(q, t0);
      if k < |q| {
        LinkedAt(q, t0, k);
      }
      LinkInWorks(t0, q, k, p);
      InsertAtEnds(q, k, p);
      if head == None {
        head := Some(p);
        t[p] := t[p].(prev := None);
        t[p] := t[p].(next := None);
        tail := Some(p);
        assert t[..] == LinkIn(t0, q, k, p);
      } else if base == None {
        t[tail.value] := t[tail.value].(next := Some(p));
        t[p] := t[p].(prev := tail);
        t[p] := t[p].(next := base);
        tail := Some(p);
        assert t[..] == LinkIn(t0, q, k, p);
      } else if t[base.value].prev == None {
        assert k == 0;
        t[p] := t[p].(next := head);
        head := Some(p);
        t[base.value] := t[base.value].(prev := Some(p));
        t[p] := t[p].(prev := None);
        assert t[..] == LinkIn(t0, q, k, p);
      } else {
        t[p] := t[p].(next := base);
        t[t[base.value].prev.value] := t[t[base.value].prev.value].(next := Some(p));
        t[p] := t[p].(prev := t[base.value].prev);
        t[base.value] := t[base.value].(prev := Some(p));
        assert t[..] == LinkIn(t0, q, k, p);
      }
      count := count + 1;
      items := InsertAt(q, k, p);
    }

    // Unlink p.
    method Delete(t: array<Entry>, p: nat)
      requires Valid(t[..]) && p in items
      modifies this, t
      ensures Valid(t[..])
      ensures items == Without(old(items), p)
      ensures Relinked(old(t[..]), t[..], Members(old(items)))
    {
      hide Linked, Distinct, Relinked, Without, Cut;
      ghost var k := PositionOf(Some(p));
      ghost var q, t0 := items, t[..];
      LinkedInRange(q, t0);
      LinkedAt(q, t0, k);
      LinkOutWorks(t0, q, k);
      WithoutAt(q, k);
      CutEnds(q, k);
      if head != None {
        if head == Some(p) {
          head := t[p].next;
        }
        if t[p].next != None {
          t[t[p].next.value] := t[t[p].next.value].(prev := t[p].prev);
        }
        if t[p].prev != None {
          t[t[p].prev.value] := t[t[p].prev.value].(next := t[p].next);
        }
        if tail == Some(p) {
          tail := t[p].prev;
        }
        t[p] := t[p].(prev := None);
        t[p] := t[p].(next := None);
        count := count - 1;
        items := Cut(q, k);
      }
      assert t[..] == LinkOut(t0, p);
    }

    // Unlink and return the head, if there is one.
    method Dequeue(t: array<Entry>) returns (p: Option<nat>)
      requires Valid(t[..])
      modifies this, t
      ensures Valid(t[..])
      ensures old(items) == [] ==> p == None && items == []
      ensures old(items) != [] ==> p == Some(old(items)[0]) && items == old(items)[1..]
      ensures Relinked(old(t[..]), t[..], Members(old(items)))
    {
      ghost var q, t0 := items, t[..];
      if head != None {
        LinkOutWorks(t0, q, 0);
        p := head;
        if t[p.value].next == None {
          head := None;
          tail := None;
        } else {
          head := t[p.value].next;
          t[t[p.value].next.value] := t[t[p.value].next.value].(prev := None);
        }
        count := count - 1;
        t[p.value] := t[p.value].(next := None);
        t[p.value] := t[p.value].(prev := None);
        items := Cut(q, 0);
        assert t[..] == LinkOut(t0, q[0]);
      } else {
        p := None;
      }
    }

    // merge_queue(): append all of other and leave it empty.
    method Merge(t: array<Entry>, other: Queue)
      requires Valid(t[..]) && other.Valid(t[..]) && other != this
      requires forall x :: x in items ==> x !in other.items
      modifies this, other, t
      ensures Valid(t[..]) && other.Valid(t[..])
      ensures items == old(items) + old(other.items) && other.items == []
      ensures Relinked(old(t[..]), t[..], Members(items))
    {
      hide Distinct, Linked, Relinked;
      ghost var a, b, t0 := items, other.items, t[..];
      LinkedInRange(a, t0);
      LinkedInRange(b, t0);
      JoinWorks(t0, a, b);
      if head != None {
        if other.head != None {
          t[tail.value] := t[tail.value].(next := other.head);
          t[other.head.value] := t[other.head.value].(prev := tail);
          tail := other.tail;
          count := count + other.count;
          other.head, other.tail, other.count := None, None, 0;
        }
        assert t[..] == Join(t0, a, b);
      } else {
        if other.head != None {
          head := other.head;
          tail := other.tail;
          count := count + other.count;
          other.head, other.tail, other.count := None, None, 0;
        }
        assert t[..] == Join(t0, a, b);
      }
      items, other.items := a + b, [];
      EmptyLinked(t[..]);
    }
  }
}
