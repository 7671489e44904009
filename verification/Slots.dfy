// Sequences of process-table slots: the abstract value of a queue.
module Slots {
  ghost predicate Distinct<T>(q: seq<T>) {
    forall i, j :: 0 <= i < j < |q| ==> q[i] != q[j]
  }

  predicate InRange(q: seq<nat>, n: nat) {
    forall i | 0 <= i < |q| :: q[i] < n
  }

  // The first occurrence of p is taken out; the others keep their order.
  function Without(q: seq<nat>, p: nat): (r: seq<nat>) {
    if q == [] then [] else if q[0] == p then q[1..] else [q[0]] + Without(q[1..], p)
  }

  function InsertAt<T>(q: seq<T>, k: nat, p: T): (r: seq<T>)
    requires k <= |q|
  {
    q[..k] + [p] + q[k..]
  }

  function Cut<T>(q: seq<T>, k: nat): (r: seq<T>)
    requires k < |q|
    ensures |r| == |q| - 1
    ensures forall i :: 0 <= i < |r| ==> r[i] == if i < k then q[i] else q[i + 1]
  {
    q[..k] + q[k + 1..]
  }

  lemma InsertAtMembers<T>(q: seq<T>, k: nat, p: T)
    requires k <= |q|
    ensures forall x :: x in InsertAt(q, k, p) <==> x in q || x == p
    ensures Distinct(q) && p !in q ==> Distinct(InsertAt(q, k, p))
  {
    assert q == q[..k] + q[k..];
    assert InsertAt(q, k, p)[k] == p;
  }

  lemma AppendMembers<T>(q: seq<T>, p: T)
    ensures forall x :: x in q + [p] <==> x in q || x == p
    ensures Distinct(q) && p !in q ==> Distinct(q + [p])
  {
    assert (q + [p])[|q|] == p;
  }

  lemma ConcatDistinct<T>(a: seq<T>, b: seq<T>)
    requires Distinct(a) && Distinct(b)
    requires forall x :: x in a ==> x !in b
    ensures Distinct(a + b)
  {
    var c := a + b;
    forall i, j | 0 <= i < j < |c| ensures c[i] != c[j] {
      assert c[i] == if i < |a| then a[i] else b[i - |a|];
      assert c[j] == if j < |a| then a[j] else b[j - |a|];
      if i < |a| <= j { assert a[i] in a && b[j - |a|] in b; }
    }
  }

  lemma TakeConcat<T>(a: seq<T>, c: seq<T>, k: nat)
    requires k <= |c|
    ensures (a + c)[..|a| + k] == a + c[..k]
  {
  }

  lemma TakeFirst<T>(a: seq<T>, c: seq<T>, k: nat)
    requires k <= |a|
    ensures (a + c)[..k] == a[..k]
  {
  }

  lemma {:induction false} WithoutMembers(q: seq<nat>, p: nat)
    requires Distinct(q)
    ensures Distinct(Without(q, p))
    ensures forall x :: x in Without(q, p) <==> x in q && x != p
  {
    if q != [] {
      assert q == [q[0]] + q[1..];
      WithoutMembers(q[1..], p);
      assert q[0] !in q[1..];
      assert q[0] !in Without(q[1..], p);
    }
  }

  lemma {:induction false} WithoutInRange(q: seq<nat>, p: nat, n: nat)
    requires InRange(q, n)
    ensures InRange(Without(q, p), n)
  {
    if q != [] {
      WithoutInRange(q[1..], p, n);
    }
  }

  lemma CutLater<T>(q: seq<T>, k: nat)
    requires 0 < k < |q|
    ensures Cut(q, k) == [q[0]] + Cut(q[1..], k - 1)
  {
  }

  lemma DistinctTail<T>(q: seq<T>)
    requires Distinct(q) && q != []
    ensures Distinct(q[1..])
  {
  }

  lemma {:induction false} WithoutAt(q: seq<nat>, k: nat)
    requires Distinct(q) && k < |q|
    ensures Without(q, q[k]) == Cut(q, k)
  {
    if k > 0 {
      assert q[0] != q[k];
      DistinctTail(q);
      hide Distinct, Cut;
      WithoutAt(q[1..], k - 1);
      CutLater(q, k);
    }
  }

  // A distinct sequence of slots below n has at most n elements.
  lemma {:induction false} DistinctBound(q: seq<nat>, n: nat)
    requires Distinct(q) && InRange(q, n)
    ensures |q| <= n
    decreases n
  {
    if q != [] {
      assert q[0] < n;
      var r := Without(q, n - 1);
      WithoutMembers(q, n - 1);
      assert InRange(r, n - 1) by {
        forall i | 0 <= i < |r| ensures r[i] < n - 1 { assert r[i] in r; assert r[i] in q; }
      }
      DistinctBound(r, n - 1);
      if n - 1 in q {
        var k :| 0 <= k < |q| && q[k] == n - 1;
        WithoutAt(q, k);
      } else {
        WithoutAbsent(q, n - 1);
      }
    }
  }

  lemma {:induction false} WithoutAbsent(q: seq<nat>, p: nat)
    requires p !in q
    ensures Without(q, p) == q
  {
    if q != [] {
      WithoutAbsent(q[1..], p);
    }
  }

  ghost function Elems(q: seq<nat>): (s: set<nat>)
    ensures forall x :: x in s <==> x in q
  {
    set x | x in q
  }

  lemma {:induction false} ElemsBound(q: seq<nat>)
    ensures |Elems(q)| <= |q|
  {
    if q == [] {
      assert Elems(q) == {};
    } else {
      ElemsBound(q[1..]);
      assert Elems(q) == {q[0]} + Elems(q[1..]);
    }
  }

  // a comes before b in the queue.
  ghost predicate Before(q: seq<nat>, a: nat, b: nat) {
    exists i, j :: 0 <= i < j < |q| && q[i] == a && q[j] == b
  }

  lemma BeforeInside(front: seq<nat>, q: seq<nat>, back: seq<nat>, a: nat, b: nat)
    requires Before(q, a, b)
    ensures Before(front + q + back, a, b)
  {
    var r := front + q + back;
    var i, j :| 0 <= i < j < |q| && q[i] == a && q[j] == b;
    assert r[|front| + i] == a && r[|front| + j] == b;
  }

  lemma BeforePrefix(q: seq<nat>, r: seq<nat>, a: nat, b: nat)
    requires Before(q, a, b) && q <= r
    ensures Before(r, a, b)
  {
    BeforeInside([], q, r[|q|..], a, b);
    assert [] + q + r[|q|..] == r;
  }

  // The head of the queue goes, and is not a.
  lemma BeforeTail(q: seq<nat>, a: nat, b: nat)
    requires Before(q, a, b) && q[0] != a
    ensures Before(q[1..], a, b)
  {
    var i, j :| 0 <= i < j < |q| && q[i] == a && q[j] == b;
    assert q[1..][i - 1] == a && q[1..][j - 1] == b;
  }

  lemma BeforeHead(q: seq<nat>, a: nat, b: nat)
    requires b in q
    ensures Before([a] + q, a, b)
  {
    var j :| 0 <= j < |q| && q[j] == b;
    assert ([a] + q)[0] == a && ([a] + q)[j + 1] == b;
  }

  lemma {:induction false} WithoutOther(q: seq<nat>, g: nat, x: nat)
    requires x in q && x != g
    ensures x in Without(q, g)
  {
    if q[0] != g && q[0] != x {
      WithoutOther(q[1..], g, x);
    }
  }

  lemma {:induction false} BeforeWithout(q: seq<nat>, g: nat, a: nat, b: nat)
    requires Before(q, a, b) && g != a && g != b
    ensures Before(Without(q, g), a, b)
  {
    if q[0] == a {
      assert b in q[1..] by {
        var i, j :| 0 <= i < j < |q| && q[i] == a && q[j] == b;
        assert q[1..][j - 1] == b;
      }
      WithoutOther(q[1..], g, b);
      BeforeHead(Without(q[1..], g), a, b);
    } else {
      BeforeTail(q, a, b);
      if q[0] != g {
        BeforeWithout(q[1..], g, a, b);
        var r := Without(q[1..], g);
        BeforeInside([q[0]], r, [], a, b);
        assert [q[0]] + r + [] == Without(q, g);
      }
    }
  }
}
